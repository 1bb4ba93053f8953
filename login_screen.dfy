/**
 * The log-in screen (frontend/src/screens/Auth/LoginScreen.tsx): the form
 * schema, how validation issues and call failures become the three error
 * fields, and the submit handler. The email check is a predicate
 * parameter; the network call is a parameter holding its reply.
 */
module LoginScreen {
  import opened Wrappers
  import opened FormIssues

  /** The form body of the password grant (section 4.3.2 of RFC 6749): the email is the username. */
  datatype Credentials = Credentials(username: string, password: string)

  /** The schema: a valid email and a password of at least 6 characters. */
  function Validate(email: string, password: string, isEmail: string -> bool): (issues: seq<Issue>)
    ensures issues == [] <==> isEmail(email) && |password| >= 6
    ensures forall k :: 0 <= k < |issues| ==> issues[k].field in {"email", "password"}
  {
    EmailIssue("email", email, isEmail, "Invalid email address")
    + MinLength("password", password, 6, "Password must be at least 6 characters")
  }

  /** The message of the last issue for a field, if any. */
  function LastMessage(issues: seq<Issue>, field: string): (r: Option<string>)
    ensures r.None? <==> forall k :: 0 <= k < |issues| ==> issues[k].field != field
    ensures r.Some? ==> exists k :: 0 <= k < |issues| && issues[k].field == field && issues[k].message == r.value
  {
    if issues == [] then None
    else if issues[|issues| - 1].field == field then Some(issues[|issues| - 1].message)
    else LastMessage(issues[..|issues| - 1], field)
  }

  /** A later issue for a field overrides an earlier one. */
  lemma {:induction false} LastMessageIsLast(issues: seq<Issue>, k: nat)
    requires k < |issues|
    requires forall j :: k < j < |issues| ==> issues[j].field != issues[k].field
    ensures LastMessage(issues, issues[k].field) == Some(issues[k].message)
  {
    if k < |issues| - 1 {
      LastMessageIsLast(issues[..|issues| - 1], k);
    }
  }

  /** What the login call gives back: success, or an error with an optional status. */
  datatype Reply = LoggedIn | Failed(status: Option<int>, message: string)

  /** The general error for a failed call: 401 has a fixed text, others their message or a default. */
  function FailureMessage(status: Option<int>, message: string): (m: string)
    ensures status == Some(401) ==> m == "Incorrect username or password"
    ensures status != Some(401) && message != "" ==> m == message
    ensures status != Some(401) && message == "" ==> m == "Login failed"
  {
    if status == Some(401) then "Incorrect username or password"
    else if message != "" then message
    else "Login failed"
  }

  class Form {
    var email: string
    var password: string
    var emailError: Option<string>
    var passwordError: Option<string>
    var generalError: Option<string>
    var loading: bool

    constructor ()
      ensures email == "" && password == "" && !loading
      ensures emailError.None? && passwordError.None? && generalError.None?
    {
      email, password := "", "";
      emailError, passwordError, generalError := None, None, None;
      loading := false;
    }

    /** The loop over the issues: each sets the error of its field. */
    method MapIssues(issues: seq<Issue>)
      modifies this
      ensures emailError == (if LastMessage(issues, "email").Some? then LastMessage(issues, "email") else old(emailError))
      ensures passwordError == (if LastMessage(issues, "password").Some? then LastMessage(issues, "password") else old(passwordError))
      ensures email == old(email) && password == old(password)
      ensures generalError == old(generalError) && loading == old(loading)
    {
      for i := 0 to |issues|
        invariant emailError == (if LastMessage(issues[..i], "email").Some? then LastMessage(issues[..i], "email") else old(emailError))
        invariant passwordError == (if LastMessage(issues[..i], "password").Some? then LastMessage(issues[..i], "password") else old(passwordError))
        invariant email == old(email) && password == old(password)
        invariant generalError == old(generalError) && loading == old(loading)
      {
        assert issues[..i + 1][..i] == issues[..i];
        if issues[i].field == "email" {
          emailError := Some(issues[i].message);
        }
        if issues[i].field == "password" {
          passwordError := Some(issues[i].message);
        }
      }
      assert issues[..|issues|] == issues;
    }

    /**
     * `handleLogin`: the three errors are cleared; a validation failure sets
     * only the field errors and sends nothing; otherwise the credentials are
     * sent and a failure sets the general error. Loading always ends false.
     */
    method HandleLogin(isEmail: string -> bool, reply: Reply) returns (sent: Option<Credentials>, navigated: bool)
      modifies this
      ensures email == old(email) && password == old(password) && !loading
      ensures var issues := Validate(old(email), old(password), isEmail);
        issues != [] ==>
          sent.None? && !navigated && generalError.None?
          && emailError == LastMessage(issues, "email") && passwordError == LastMessage(issues, "password")
      ensures Validate(old(email), old(password), isEmail) == [] ==>
        sent == Some(Credentials(old(email), old(password))) && emailError.None? && passwordError.None?
        && (navigated <==> reply.LoggedIn?)
        && generalError == (if reply.LoggedIn? then None else Some(FailureMessage(reply.status, reply.message)))
    {
      loading := true;
      emailError, passwordError, generalError := None, None, None;
      var issues := Validate(email, password, isEmail);
      if issues != [] {
        MapIssues(issues);
        loading := false;
        return None, false;
      }
      sent := Some(Credentials(email, password));
      navigated := false;
      if reply.LoggedIn? {
        navigated := true;
      } else {
        generalError := Some(FailureMessage(reply.status, reply.message));
      }
      loading := false;
    }
  }
}
