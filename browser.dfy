/**
 * The browser-side world the components act on: the persisted session
 * (read through the authentication service, whose implementation is not
 * part of this model), the current location, and the effects a handler can
 * request (navigate somewhere, clear the session).
 */
module Browser {

  datatype Option<+T> = None | Some(value: T)

  /** The session record the authentication service keeps for a logged-in user. */
  datatype User = User(username: string, accessToken: string)

  /** What an event handler asks of the outside world, in the order it asks. */
  datatype Effect =
    | NavigateTo(path: string)
    | ClearSession

  /** One browser tab: the session visible to it and the path it is on. */
  datatype Tab = Tab(session: Option<User>, location: string)

  function Apply(t: Tab, e: Effect): Tab
  {
    match e
    case NavigateTo(path) => t.(location := path)
    case ClearSession => t.(session := None)
  }

  /** The last navigation among `effects`, if there is one. */
  function LastNavigation(effects: seq<Effect>): Option<string>
  {
    if effects == [] then None
    else if effects[|effects| - 1].NavigateTo? then Some(effects[|effects| - 1].path)
    else LastNavigation(effects[..|effects| - 1])
  }

  /** Performs the effects left to right. */
  function ApplyAll(t: Tab, effects: seq<Effect>): (r: Tab)
    ensures ClearSession in effects ==> r.session == None
    ensures ClearSession !in effects ==> r.session == t.session
    ensures r.location == match LastNavigation(effects)
                          case Some(p) => p
                          case None => t.location
    decreases |effects|
  {
    if effects == [] then t
    else
      var last := effects[|effects| - 1];
      var init := effects[..|effects| - 1];
      assert effects == init + [last];
      assert ClearSession in effects <==> ClearSession in init || last == ClearSession;
      Apply(ApplyAll(t, init), last)
  }
}
