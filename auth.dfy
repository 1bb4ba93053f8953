/**
 * Authentication (backend/app/api/auth.py): resolving a bearer token to a
 * user, registering, and logging in with the password grant of section
 * 4.3.2 of RFC 6749. Password hashing and token signing live in a module
 * that is not part of this model, so they are parameters: `hash` for
 * `get_password_hash`, `verify` for `verify_password`, `sign` for
 * `create_access_token` over the claims `sub` and `email`, and the decoded
 * claims of `decode_access_token` (None when the token does not decode).
 */
module Auth {
  import opened Wrappers
  import opened Store

  /** An `HTTPException`, with the `WWW-Authenticate` challenge when it carries one. */
  datatype Refusal = Refusal(status: int, detail: string, challenge: Option<string>)

  /** The 401 of section 3 of RFC 6750: the client must present a bearer token. */
  const CredentialsRefused := Refusal(Unauthorized, "Could not validate credentials", Some("Bearer"))
  const LoginRefused := Refusal(Unauthorized, "Incorrect email or password", Some("Bearer"))
  const EmailTaken := Refusal(BadRequest, "Email already registered", None)
  const StudentIdTaken := Refusal(BadRequest, "Student ID already registered", None)
  /** The 500 of an `IntegrityError` raised by `db.commit()` on a unique column. */
  const CommitFailed := Refusal(ServerError, "Internal Server Error", None)

  /** A `UserCreate` request. */
  datatype Registration = Registration(
    email: string, password: string, name: string, phoneNumber: Option<string>,
    role: UserRole, studentId: Option<string>)

  /** A `Token` reply. */
  datatype Token = Token(accessToken: string, tokenType: string, user: User)

  function EmailIs(email: string): User -> bool {
    (u: User) => u.email == email
  }

  function StudentIdIs(studentId: string): User -> bool {
    (u: User) => u.studentId == Some(studentId)
  }

  function UserIdIs(userId: string): User -> bool {
    (u: User) => u.id == userId
  }

  /**
   * `get_current_user`: 401 with the bearer challenge when the token does
   * not decode, has no `sub` claim, or names no stored user.
   */
  function CurrentUser(users: seq<User>, claims: Option<map<string, string>>): (r: Result<User, Refusal>)
    ensures r.Err? ==> r.error == CredentialsRefused
    ensures r.Ok? <==>
      claims.Some? && "sub" in claims.value
      && exists k :: 0 <= k < |users| && users[k].id == claims.value["sub"]
    ensures r.Ok? ==> r.value in users && r.value.id == claims.value["sub"]
  {
    if claims.None? || "sub" !in claims.value then Err(CredentialsRefused)
    else match FirstIndex(users, UserIdIs(claims.value["sub"]))
      case None => Err(CredentialsRefused)
      case Some(k) => Ok(users[k])
  }

  /** A non-empty student id (`if user_data.student_id:`). */
  predicate HasStudentId(req: Registration) {
    req.studentId.Some? && req.studentId.value != ""
  }

  /** The row a registration stores: the password only as its hash. */
  function NewUser(req: Registration, newId: string, hash: string -> string): User {
    User(newId, req.email, hash(req.password), req.studentId, req.name, req.phoneNumber, req.role, UserActive)
  }

  /**
   * `register`: 400 for a stored email, then 400 for a stored non-empty
   * student id. An empty student id is not checked, but the `student_id`
   * column is unique, so storing a second empty one fails at `db.commit()`
   * with a 500. Otherwise exactly one user is added, holding the hash of
   * the password, and a token for it returned.
   */
  function Register(users: seq<User>, req: Registration, newId: string, hash: string -> string, sign: (string, string) -> string)
    : (o: (seq<User>, Result<Token, Refusal>))
    ensures (exists k :: 0 <= k < |users| && users[k].email == req.email) ==> o == (users, Err(EmailTaken))
    ensures ((forall k :: 0 <= k < |users| ==> users[k].email != req.email) && HasStudentId(req)
             && (exists k :: 0 <= k < |users| && users[k].studentId == req.studentId)) ==>
      o == (users, Err(StudentIdTaken))
    ensures ((forall k :: 0 <= k < |users| ==> users[k].email != req.email) && req.studentId == Some("")
             && (exists k :: 0 <= k < |users| && users[k].studentId == req.studentId)) ==>
      o == (users, Err(CommitFailed))
    ensures o.1.Ok? <==>
      (forall k :: 0 <= k < |users| ==> users[k].email != req.email)
      && (req.studentId.Some? ==> forall k :: 0 <= k < |users| ==> users[k].studentId != req.studentId)
    ensures o.1.Ok? ==> o.0 == users + [o.1.value.user]
    ensures o.1.Ok? ==> o.1.value.user.hashedPassword == hash(req.password) && o.1.value.user.id == newId
    ensures o.1.Ok? ==> o.1.value == Token(sign(newId, req.email), "bearer", NewUser(req, newId, hash))
  {
    if FirstIndex(users, EmailIs(req.email)).Some? then (users, Err(EmailTaken))
    else if HasStudentId(req) && FirstIndex(users, StudentIdIs(req.studentId.value)).Some? then (users, Err(StudentIdTaken))
    else if req.studentId.Some? && FirstIndex(users, StudentIdIs(req.studentId.value)).Some? then (users, Err(CommitFailed))
    else
      var u := NewUser(req, newId, hash);
      (users + [u], Ok(Token(sign(newId, req.email), "bearer", u)))
  }

  /** Emails are unique, and so are the student ids that are present, as the table's unique columns demand. */
  predicate UniqueAccounts(users: seq<User>) {
    (forall i, j :: 0 <= i < |users| && 0 <= j < |users| && users[i].email == users[j].email ==> i == j)
    && (forall i, j :: (0 <= i < |users| && 0 <= j < |users| && i != j && users[i].studentId.Some?) ==>
          users[i].studentId != users[j].studentId)
  }

  /** Registration keeps emails and student ids unique. */
  lemma RegisterKeepsUniqueAccounts(users: seq<User>, req: Registration, newId: string, hash: string -> string, sign: (string, string) -> string)
    requires UniqueAccounts(users)
    ensures UniqueAccounts(Register(users, req, newId, hash, sign).0)
  {
    var o := Register(users, req, newId, hash, sign);
    if o.1.Ok? {
      var r := o.0;
      assert r == users + [NewUser(req, newId, hash)];
      forall i, j | 0 <= i < |r| && 0 <= j < |r| && i != j && r[i].studentId.Some?
        ensures r[i].studentId != r[j].studentId
      {
        if i == |users| {
          assert r[j] == users[j];
        } else if j == |users| {
          assert r[i] == users[i];
        }
      }
    }
  }

  /** The student id a registration should store: a blank one as no id at all. */
  function StoredStudentId(req: Registration): (r: Option<string>)
    ensures r.Some? <==> HasStudentId(req)
    ensures r.Some? ==> r == req.studentId
  {
    if HasStudentId(req) then req.studentId else None
  }

  /**
   * Registration as intended: a blank student id, which the sign-up form
   * sends for every student who leaves the field empty, is stored as no id,
   * so any number of students may leave it blank.
   */
  function RegisterBlankAsNull(users: seq<User>, req: Registration, newId: string, hash: string -> string, sign: (string, string) -> string)
    : (o: (seq<User>, Result<Token, Refusal>))
    ensures (exists k :: 0 <= k < |users| && users[k].email == req.email) ==> o == (users, Err(EmailTaken))
    ensures o.1.Ok? <==>
      (forall k :: 0 <= k < |users| ==> users[k].email != req.email)
      && (HasStudentId(req) ==> forall k :: 0 <= k < |users| ==> users[k].studentId != req.studentId)
    ensures o.1.Ok? ==> o.0 == users + [o.1.value.user] && o.1.value.user.studentId == StoredStudentId(req)
  {
    Register(users, req.(studentId := StoredStudentId(req)), newId, hash, sign)
  }

  /** The intended registration keeps emails and student ids unique too. */
  lemma RegisterBlankAsNullKeepsUniqueAccounts(users: seq<User>, req: Registration, newId: string, hash: string -> string, sign: (string, string) -> string)
    requires UniqueAccounts(users)
    ensures UniqueAccounts(RegisterBlankAsNull(users, req, newId, hash, sign).0)
  {
    RegisterKeepsUniqueAccounts(users, req.(studentId := StoredStudentId(req)), newId, hash, sign);
  }

  /**
   * Once one student is stored with a blank student id, every further
   * registration with a blank one fails at commit as written, and succeeds
   * as intended whenever its email is free.
   */
  lemma SecondBlankStudentIdFails(users: seq<User>, req: Registration, newId: string, hash: string -> string, sign: (string, string) -> string)
    requires forall k :: 0 <= k < |users| ==> users[k].email != req.email
    requires req.studentId == Some("")
    requires exists k :: 0 <= k < |users| && users[k].studentId == Some("")
    ensures Register(users, req, newId, hash, sign) == (users, Err(CommitFailed))
    ensures RegisterBlankAsNull(users, req, newId, hash, sign).1.Ok?
  {
  }

  /**
   * `login`: the user whose email is the form's `username`; a missing user
   * and a wrong password give the same 401, so the reply does not tell
   * which one it was.
   */
  function Login(users: seq<User>, username: string, password: string, verify: (string, string) -> bool, sign: (string, string) -> string)
    : (r: Result<Token, Refusal>)
    ensures r.Err? ==> r.error == LoginRefused
    ensures r.Ok? <==>
      FirstIndex(users, EmailIs(username)).Some?
      && verify(password, users[FirstIndex(users, EmailIs(username)).value].hashedPassword)
    ensures r.Ok? ==>
      r.value.user.email == username && r.value.user in users
      && r.value == Token(sign(r.value.user.id, username), "bearer", r.value.user)
  {
    match FirstIndex(users, EmailIs(username))
    case None => Err(LoginRefused)
    case Some(k) =>
      if !verify(password, users[k].hashedPassword) then Err(LoginRefused)
      else Ok(Token(sign(users[k].id, users[k].email), "bearer", users[k]))
  }

  /**
   * With a hashing scheme whose hashes verify, logging in with the email
   * and password just registered succeeds as the new user.
   */
  lemma RegisterThenLogin(users: seq<User>, req: Registration, newId: string,
                          hash: string -> string, verify: (string, string) -> bool, sign: (string, string) -> string)
    requires forall p :: verify(p, hash(p))
    requires Register(users, req, newId, hash, sign).1.Ok?
    ensures var stored := Register(users, req, newId, hash, sign).0;
      Login(stored, req.email, req.password, verify, sign)
        == Ok(Token(sign(newId, req.email), "bearer", NewUser(req, newId, hash)))
  {
    var stored := Register(users, req, newId, hash, sign).0;
    FirstIndexAppend(users, [NewUser(req, newId, hash)], EmailIs(req.email));
    assert FirstIndex([NewUser(req, newId, hash)], EmailIs(req.email)) == Some(0);
  }

  /** The user table, with registration inserting into it. */
  class UserTable {
    var users: seq<User>

    constructor(users: seq<User>)
      ensures this.users == users
    {
      this.users := users;
    }

    method GetCurrentUser(claims: Option<map<string, string>>) returns (r: Result<User, Refusal>)
      ensures r == CurrentUser(users, claims)
    {
      if claims.None? {
        return Err(CredentialsRefused);
      }
      if "sub" !in claims.value {
        return Err(CredentialsRefused);
      }
      var found := FindFirst(users, UserIdIs(claims.value["sub"]));
      if found.None? {
        return Err(CredentialsRefused);
      }
      r := Ok(users[found.value]);
    }

    method RegisterUser(req: Registration, newId: string, hash: string -> string, sign: (string, string) -> string)
      returns (r: Result<Token, Refusal>)
      modifies this
      ensures (users, r) == Register(old(users), req, newId, hash, sign)
    {
      var existing := FindFirst(users, EmailIs(req.email));
      if existing.Some? {
        return Err(EmailTaken);
      }
      if HasStudentId(req) {
        var student := FindFirst(users, StudentIdIs(req.studentId.value));
        if student.Some? {
          return Err(StudentIdTaken);
        }
      }
      var u := User(newId, req.email, hash(req.password), req.studentId, req.name, req.phoneNumber, req.role, UserActive);
      // `db.commit()`: the unique `student_id` column refuses a second blank id.
      if req.studentId.Some? {
        var clash := FindFirst(users, StudentIdIs(req.studentId.value));
        if clash.Some? {
          return Err(CommitFailed);
        }
      }
      users := users + [u];
      r := Ok(Token(sign(u.id, u.email), "bearer", u));
    }

    method LoginUser(username: string, password: string, verify: (string, string) -> bool, sign: (string, string) -> string)
      returns (r: Result<Token, Refusal>)
      ensures r == Login(users, username, password, verify, sign)
    {
      var found := FindFirst(users, EmailIs(username));
      if found.None? || !verify(password, users[found.value].hashedPassword) {
        return Err(LoginRefused);
      }
      var u := users[found.value];
      r := Ok(Token(sign(u.id, u.email), "bearer", u));
    }
  }
}
