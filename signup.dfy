/**
 * The signup page: an authenticated visitor is sent home at once; otherwise the submit handler
 * runs three guard checks in a fixed order, shows the first failing check's message, and calls
 * `register` only when all three pass.
 */
module Signup {
  import opened Records

  const FillMessage := "Please fill in all fields"
  const MismatchMessage := "Passwords do not match"
  const ShortMessage := "Password must be at least 6 characters long"

  /** The shortest password the page accepts. */
  const MinPasswordLength := 6

  /** The first failing check of the submit handler, or `None` when the form may be sent. */
  function SignupError(username: string, email: string, password: string, confirm: string): (e: Option<string>)
    ensures (username == [] || email == [] || password == [] || confirm == []) ==> e == Some(FillMessage)
    ensures username != [] && email != [] && password != [] && confirm != [] && password != confirm ==>
      e == Some(MismatchMessage)
    ensures username != [] && email != [] && password == confirm && 0 < |password| < MinPasswordLength ==>
      e == Some(ShortMessage)
    ensures e == None <==>
      username != [] && email != [] && password == confirm && |password| >= MinPasswordLength
  {
    if username == [] || email == [] || password == [] || confirm == [] then Some(FillMessage)
    else if password != confirm then Some(MismatchMessage)
    else if |password| < MinPasswordLength then Some(ShortMessage)
    else None
  }

  /** One guard of the handler: whether it throws, and the message it throws. */
  datatype Check = Check(fails: bool, message: string)

  /** The handler's guards in source order. */
  function Checks(username: string, email: string, password: string, confirm: string): (cs: seq<Check>)
    ensures |cs| == 3
  {
    [ Check(username == [] || email == [] || password == [] || confirm == [], FillMessage),
      Check(password != confirm, MismatchMessage),
      Check(|password| < MinPasswordLength, ShortMessage) ]
  }

  /** The message of the first guard that fails, as a chain of `throw`s reports it. */
  function FirstFailure(cs: seq<Check>): (e: Option<string>)
    ensures e == None <==> forall i :: 0 <= i < |cs| ==> !cs[i].fails
    ensures e.Some? ==> exists i :: 0 <= i < |cs| && cs[i].fails && cs[i].message == e.value
  {
    if cs == [] then None
    else if cs[0].fails then Some(cs[0].message)
    else
      var e := FirstFailure(cs[1..]);
      assert forall i :: 1 <= i < |cs| ==> cs[i] == cs[1..][i - 1];
      e
  }

  /** The checks run in the order written: the error shown is the first failing guard's. */
  lemma SignupErrorIsFirstFailure(username: string, email: string, password: string, confirm: string)
    ensures SignupError(username, email, password, confirm) == FirstFailure(Checks(username, email, password, confirm))
  {
    var cs := Checks(username, email, password, confirm);
    assert FirstFailure(cs[2..]) == (if cs[2].fails then Some(ShortMessage) else None) by {
      assert cs[2..][1..] == [];
    }
    assert FirstFailure(cs[1..]) == (if cs[1].fails then Some(MismatchMessage) else FirstFailure(cs[2..])) by {
      assert cs[1..][1..] == cs[2..];
    }
  }

  /** An empty field is reported whatever the passwords are. */
  lemma EmptyFieldFirst(username: string, email: string, password: string, confirm: string)
    requires username == [] || email == []
    ensures SignupError(username, email, password, confirm) == Some(FillMessage)
  {
  }

  /** What happens when the page loads. */
  datatype PageStart = RedirectHome | InstallSubmitHandler

  function OnLoad(authenticated: bool): (p: PageStart)
    ensures p == RedirectHome <==> authenticated
  {
    if authenticated then RedirectHome else InstallSubmitHandler
  }

  /** The body `register` is called with. */
  datatype Registration = Registration(username: string, email: string, password: string)

  /** How a submission ends: sent home, or an error message displayed. */
  datatype Outcome = GoHome | ShowError(message: string)

  /** One submission: the registration sent (if any) and how it ended. */
  datatype Submission = Submission(sent: Option<Registration>, outcome: Outcome)

  /**
   * The submit handler. `registerError` is the message the register call throws (`None` when it
   * succeeds); it matters only when the call is made.
   */
  function Submit(username: string, email: string, password: string, confirm: string,
                  registerError: Option<string>): (s: Submission)
    ensures s.sent.Some? <==> SignupError(username, email, password, confirm) == None
    ensures s.sent.Some? ==> s.sent.value == Registration(username, email, password)
    ensures s.outcome == GoHome <==> s.sent.Some? && registerError.None?
    ensures SignupError(username, email, password, confirm).Some? ==>
      s.outcome == ShowError(SignupError(username, email, password, confirm).value)
    ensures s.sent.Some? && registerError.Some? ==> s.outcome == ShowError(registerError.value)
  {
    match SignupError(username, email, password, confirm)
    case Some(message) => Submission(None, ShowError(message))
    case None =>
      var sent := Some(Registration(username, email, password));
      match registerError
      case None => Submission(sent, GoHome)
      case Some(message) => Submission(sent, ShowError(message))
  }

  /** A registration that is sent always carries a confirmed password of at least six characters. */
  lemma SentPasswordIsConfirmed(username: string, email: string, password: string, confirm: string,
                                registerError: Option<string>)
    requires Submit(username, email, password, confirm, registerError).sent.Some?
    ensures password == confirm && |password| >= MinPasswordLength && username != [] && email != []
  {
  }
}
