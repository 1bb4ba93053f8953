/**
 * The sign-up screen (frontend/src/screens/Auth/SignupScreen.tsx): the
 * form schema, the request payload, the error map built from validation
 * issues, and the submit handler. The email check of the schema library is
 * a predicate parameter; the network call is a parameter holding its reply.
 */
module SignupScreen {
  import opened Wrappers
  import opened FormIssues

  datatype Role = Student | Lecturer | Admin

  datatype Payload = Payload(email: string, name: string, phoneNumber: string, role: Role,
                             password: string, studentId: Option<string>)

  /** The payload of the form: a student id only for the student role. */
  function PayloadOf(email: string, name: string, phone: string, role: Role, password: string, studentId: string): (p: Payload)
    ensures p.studentId.Some? <==> role == Student
    ensures p.studentId.Some? ==> p.studentId.value == studentId
    ensures p.email == email && p.name == name && p.phoneNumber == phone && p.role == role && p.password == password
  {
    Payload(email, name, phone, role, password, if role == Student then Some(studentId) else None)
  }

  /**
   * The schema: name of at least 2 characters, a valid email, phone number
   * of at least 5, password of at least 10; the role is one of the three
   * by its type and the student id is optional, so neither yields an issue.
   */
  function Validate(p: Payload, isEmail: string -> bool): (issues: seq<Issue>)
    ensures issues == [] <==> |p.name| >= 2 && isEmail(p.email) && |p.phoneNumber| >= 5 && |p.password| >= 10
  {
    MinLength("name", p.name, 2, "Name is required")
    + EmailIssue("email", p.email, isEmail, "Invalid email")
    + MinLength("phone_number", p.phoneNumber, 5, "Invalid phone number")
    + MinLength("password", p.password, 10, "Password must be at least 10 characters")
  }

  /** The error map: each issue with a field sets that field, so a later issue wins. */
  function ErrorsOf(issues: seq<Issue>): (errors: map<string, string>)
    ensures forall f :: f in errors <==> f != "" && exists k :: 0 <= k < |issues| && issues[k].field == f
  {
    if issues == [] then map[]
    else
      var last := issues[|issues| - 1];
      var before := ErrorsOf(issues[..|issues| - 1]);
      if last.field != "" then before[last.field := last.message] else before
  }

  /** The message stored for a field is the one of the last issue for it. */
  lemma {:induction false} ErrorsOfLastWins(issues: seq<Issue>, k: nat)
    requires k < |issues| && issues[k].field != ""
    requires forall j :: k < j < |issues| ==> issues[j].field != issues[k].field
    ensures issues[k].field in ErrorsOf(issues) && ErrorsOf(issues)[issues[k].field] == issues[k].message
  {
    if k < |issues| - 1 {
      ErrorsOfLastWins(issues[..|issues| - 1], k);
    }
  }

  /** `newErrors` filled by the loop over the issues. */
  method BuildErrors(issues: seq<Issue>) returns (errors: map<string, string>)
    ensures errors == ErrorsOf(issues)
  {
    errors := map[];
    for i := 0 to |issues|
      invariant errors == ErrorsOf(issues[..i])
    {
      assert issues[..i + 1][..i] == issues[..i];
      if issues[i].field != "" {
        errors := errors[issues[i].field := issues[i].message];
      }
    }
    assert issues[..|issues|] == issues;
  }

  /** What the sign-up call gives back: success, an error result, or a thrown error. */
  datatype Reply = Accepted | Refused(message: string) | Threw(message: string)

  const ApiKey := "api"

  /** The error map after a failed call. */
  function ApiErrors(reply: Reply): (errors: map<string, string>)
    requires !reply.Accepted?
    ensures errors.Keys == {ApiKey}
    ensures reply.Refused? ==> errors[ApiKey] == reply.message
    ensures reply.Threw? ==> errors[ApiKey] == (if reply.message != "" then reply.message else "Signup failed")
  {
    if reply.Refused? then map[ApiKey := reply.message]
    else map[ApiKey := if reply.message != "" then reply.message else "Signup failed"]
  }

  class Form {
    var email: string
    var name: string
    var phoneNumber: string
    var role: Role
    var password: string
    var studentId: string
    var errors: map<string, string>
    var loading: bool

    constructor ()
      ensures email == "" && name == "" && phoneNumber == "" && role == Student
      ensures password == "" && studentId == "" && errors == map[] && !loading
    {
      email, name, phoneNumber, role, password, studentId := "", "", "", Student, "", "";
      errors := map[];
      loading := false;
    }

    /**
     * `handleSignup`: on a validation failure the issues become the error
     * map and nothing is sent; otherwise the payload is sent, a failure is
     * stored under "api", and success navigates home. Loading ends false.
     */
    method HandleSignup(isEmail: string -> bool, reply: Reply) returns (sent: Option<Payload>, navigated: bool)
      modifies this
      ensures email == old(email) && name == old(name) && phoneNumber == old(phoneNumber)
      ensures role == old(role) && password == old(password) && studentId == old(studentId)
      ensures var p := PayloadOf(old(email), old(name), old(phoneNumber), old(role), old(password), old(studentId));
        Validate(p, isEmail) != [] ==>
          sent.None? && !navigated && errors == ErrorsOf(Validate(p, isEmail)) && loading == old(loading)
      ensures var p := PayloadOf(old(email), old(name), old(phoneNumber), old(role), old(password), old(studentId));
        Validate(p, isEmail) == [] ==>
          sent == Some(p) && !loading && (navigated <==> reply.Accepted?)
          && errors == (if reply.Accepted? then map[] else ApiErrors(reply))
    {
      errors := map[];
      var payload := PayloadOf(email, name, phoneNumber, role, password, studentId);
      var issues := Validate(payload, isEmail);
      if issues != [] {
        errors := BuildErrors(issues);
        return None, false;
      }
      loading := true;
      sent := Some(payload);
      navigated := false;
      if reply.Accepted? {
        navigated := true;
      } else {
        errors := ApiErrors(reply);
      }
      loading := false;
    }
  }
}
