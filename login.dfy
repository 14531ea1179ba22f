/**
 * The login screen: how a failed login is turned into the text of the
 * error alert, and the form's `loading`/`message` state around a
 * submission. The login request itself is not modelled; its two outcomes
 * are inputs.
 */
module Login {
  import opened Browser
  import opened App

  /** The body of an error response. A missing and an empty message are both falsy. */
  datatype ResponseData = ResponseData(message: Option<string>)

  datatype Response = Response(data: Option<ResponseData>)

  /** A rejected login: the HTTP response if there was one, the error's own message, and what `toString()` gives. */
  datatype AuthError = AuthError(response: Option<Response>, message: Option<string>, text: string)

  /** The outcome of the login request. */
  datatype LoginOutcome = Succeeded | Failed(error: AuthError)

  /** JavaScript truthiness of an optional string: present and not empty. */
  predicate Truthy(s: Option<string>)
  {
    s.Some? && s.value != ""
  }

  /** `error.response && error.response.data && error.response.data.message`, up to truthiness. */
  function ServerMessage(e: AuthError): (m: Option<string>)
    ensures m.Some? <==> e.response.Some? && e.response.value.data.Some? && e.response.value.data.value.message.Some?
    ensures m.Some? ==> m == e.response.value.data.value.message
  {
    match e.response
    case None => None
    case Some(r) =>
      match r.data
      case None => None
      case Some(d) => d.message
  }

  /** The message shown for a failed login. */
  function ResolveMessage(e: AuthError): (m: string)
    ensures Truthy(ServerMessage(e)) ==> m == ServerMessage(e).value
    ensures !Truthy(ServerMessage(e)) && Truthy(e.message) ==> m == e.message.value
    ensures !Truthy(ServerMessage(e)) && !Truthy(e.message) ==> m == e.text
    ensures m == "" <==> !Truthy(ServerMessage(e)) && !Truthy(e.message) && e.text == ""
  {
    var server := ServerMessage(e);
    if Truthy(server) then server.value
    else if Truthy(e.message) then e.message.value
    else e.text
  }

  /**
   * JavaScript's `a || b || ... || last` over optional strings: the first
   * truthy operand, or `last` when none is.
   */
  function FirstTruthy(operands: seq<Option<string>>, last: string): string
    decreases |operands|
  {
    if operands == [] then last
    else if Truthy(operands[0]) then operands[0].value
    else FirstTruthy(operands[1..], last)
  }

  /** The `||` chain yields the first truthy operand. */
  lemma {:induction false} FirstTruthyPicksFirst(operands: seq<Option<string>>, last: string, i: nat)
    requires i < |operands| && Truthy(operands[i])
    requires forall j :: 0 <= j < i ==> !Truthy(operands[j])
    ensures FirstTruthy(operands, last) == operands[i].value
    decreases i
  {
    if i > 0 {
      FirstTruthyPicksFirst(operands[1..], last, i - 1);
    }
  }

  /** The `||` chain yields `last` when no operand is truthy. */
  lemma {:induction false} FirstTruthyFallsBack(operands: seq<Option<string>>, last: string)
    requires forall j :: 0 <= j < |operands| ==> !Truthy(operands[j])
    ensures FirstTruthy(operands, last) == last
    decreases |operands|
  {
    if operands != [] {
      FirstTruthyFallsBack(operands[1..], last);
    }
  }

  /** The resolver is the source's `||` chain over its three operands. */
  lemma ResolveMessageIsOrChain(e: AuthError)
    ensures ResolveMessage(e) == FirstTruthy([ServerMessage(e), e.message], e.text)
  {
    var operands := [ServerMessage(e), e.message];
    if Truthy(ServerMessage(e)) {
      FirstTruthyPicksFirst(operands, e.text, 0);
    } else if Truthy(e.message) {
      FirstTruthyPicksFirst(operands, e.text, 1);
    } else {
      FirstTruthyFallsBack(operands, e.text);
    }
  }

  const SubmitLabel: string := "Giriş Yap"
  const SubmittingLabel: string := "Giriş Yapılıyor..."

  /** `{message && <Alert .../>}`: the alert is rendered when the message is truthy. */
  function AlertShown(message: string): (b: bool)
    ensures b <==> message != ""
  {
    Truthy(Some(message))
  }

  function ButtonLabel(loading: bool): (text: string)
    ensures text == SubmittingLabel <==> loading
    ensures text == SubmitLabel <==> !loading
  {
    if loading then SubmittingLabel else SubmitLabel
  }

  class LoginForm {
    var loading: bool
    var message: string

    /** The initial values of the two state hooks. */
    constructor ()
      ensures !loading && message == ""
    {
      loading := false;
      message := "";
    }

    /** Submitting the form: clear the alert and show the spinner before the request answers. */
    method Submit()
      modifies this
      ensures message == "" && loading
      ensures !AlertShown(message) && ButtonLabel(loading) == SubmittingLabel
    {
      message := "";
      loading := true;
    }

    /**
     * The success continuation: go to the dashboard. It changes no form
     * state, so `loading` stays as it was.
     */
    method Succeed() returns (effects: seq<Effect>)
      ensures effects == [NavigateTo(HomePath)]
      ensures forall t: Tab :: t.session.Some? ==> Landing(ApplyAll(t, effects)) == Some(HomeView)
    {
      effects := [NavigateTo(HomePath)];
      assert LastNavigation(effects) == Some(HomePath);
    }

    /** The failure continuation: stop the spinner and show the resolved message. */
    method Fail(error: AuthError)
      modifies this
      ensures !loading && message == ResolveMessage(error)
      ensures AlertShown(message) <==> ResolveMessage(error) != ""
    {
      loading := false;
      message := ResolveMessage(error);
    }

    /** A submission followed by its outcome. */
    method OnFinish(outcome: LoginOutcome) returns (effects: seq<Effect>)
      modifies this
      ensures outcome.Succeeded? ==> loading && message == "" && effects == [NavigateTo(HomePath)]
      ensures outcome.Failed? ==> !loading && message == ResolveMessage(outcome.error) && effects == []
    {
      Submit();
      match outcome
      case Succeeded =>
        effects := Succeed();
      case Failed(error) =>
        Fail(error);
        effects := [];
    }
  }

  /** A server that answers "Invalid credentials" gets exactly that text in the alert. */
  lemma InvalidCredentialsShown(message: Option<string>, text: string)
    ensures ResolveMessage(AuthError(Some(Response(Some(ResponseData(Some("Invalid credentials"))))), message, text))
            == "Invalid credentials"
  {
  }

  /** An empty server message falls through to the error's own message. */
  lemma EmptyServerMessageFallsThrough(message: string, text: string)
    requires message != ""
    ensures ResolveMessage(AuthError(Some(Response(Some(ResponseData(Some(""))))), Some(message), text)) == message
  {
  }
}
