/** The backend's account service (AuthService.java): registration with a
    unique email, and login by email and password. The user repository is
    a map from email to stored user (the email column is unique); the
    fresh id (a random UUID) is a parameter. */
module Auth {
  import opened Wrappers
  import opened Entities

  datatype StoredUser = StoredUser(id: string, name: string, email: string, password: string, userType: UserType)
  datatype RegisterRequest = RegisterRequest(name: string, email: string, password: string, userType: UserType)
  /** What the service answers; it has no password. */
  datatype UserResponse = UserResponse(id: string, name: string, email: string, userType: UserType)

  const EmailTakenMessage := "Email already exists"
  const UserNotFoundMessage := "User not found"
  const InvalidPasswordMessage := "Invalid password"

  /** Every stored user sits under its own email. */
  ghost predicate EmailsKeyed(repo: map<string, StoredUser>) {
    forall e :: e in repo ==> repo[e].email == e
  }

  function ResponseOf(u: StoredUser): (r: UserResponse)
    ensures r.id == u.id && r.name == u.name && r.email == u.email && r.userType == u.userType
  {
    UserResponse(u.id, u.name, u.email, u.userType)
  }

  /** `register` on a repository: the answer and the repository after it. */
  function RegisterIn(repo: map<string, StoredUser>, req: RegisterRequest, freshId: string)
    : (out: (Result<UserResponse, string>, map<string, StoredUser>))
    ensures req.email in repo ==> out == (Err(EmailTakenMessage), repo)
    ensures req.email !in repo ==>
      out.1 == repo[req.email := StoredUser(freshId, req.name, req.email, req.password, req.userType)] &&
      out.0 == Ok(UserResponse(freshId, req.name, req.email, req.userType))
    ensures EmailsKeyed(repo) ==> EmailsKeyed(out.1)
    ensures forall e :: e in repo ==> e in out.1 && out.1[e] == repo[e]
  {
    if req.email in repo then (Err(EmailTakenMessage), repo)
    else
      var u := StoredUser(freshId, req.name, req.email, req.password, req.userType);
      (Ok(ResponseOf(u)), repo[req.email := u])
  }

  /** `login` on a repository. */
  function LoginIn(repo: map<string, StoredUser>, email: string, password: string)
    : (r: Result<UserResponse, string>)
    ensures email !in repo <==> r == Err(UserNotFoundMessage)
    ensures email in repo && repo[email].password != password <==> r == Err(InvalidPasswordMessage)
    ensures r.Ok? <==> email in repo && repo[email].password == password
    ensures r.Ok? ==> r.value == ResponseOf(repo[email])
  {
    if email !in repo then Err(UserNotFoundMessage)
    else if repo[email].password != password then Err(InvalidPasswordMessage)
    else Ok(ResponseOf(repo[email]))
  }

  /** After a successful registration, logging in with the same email and
      password answers with the registered identity, and any other
      password is refused. */
  lemma RegisterThenLogin(repo: map<string, StoredUser>, req: RegisterRequest, freshId: string, other: string)
    requires req.email !in repo
    requires other != req.password
    ensures var out := RegisterIn(repo, req, freshId);
      LoginIn(out.1, req.email, req.password) == out.0 &&
      LoginIn(out.1, req.email, other) == Err(InvalidPasswordMessage)
  {
  }

  /** A registration never changes how earlier accounts log in. */
  lemma RegisterKeepsLogins(repo: map<string, StoredUser>, req: RegisterRequest, freshId: string,
                            email: string, password: string)
    requires email in repo
    ensures LoginIn(RegisterIn(repo, req, freshId).1, email, password) == LoginIn(repo, email, password)
  {
  }

  class AuthService {
    var repo: map<string, StoredUser>

    ghost predicate Valid()
      reads this
    {
      EmailsKeyed(repo)
    }

    /** The service over the injected repository, whatever accounts it
        already holds. */
    constructor (initial: map<string, StoredUser>)
      requires EmailsKeyed(initial)
      ensures Valid() && repo == initial
    {
      repo := initial;
    }

    /** `register`: refused with "Email already exists" when the email is
        stored (nothing saved); otherwise the user is saved and answered. */
    method Register(req: RegisterRequest, freshId: string) returns (r: Result<UserResponse, string>)
      requires Valid()
      modifies this
      ensures Valid()
      ensures (r, repo) == RegisterIn(old(repo), req, freshId)
      ensures r.Ok? ==> Login(req.email, req.password) == r
    {
      var out := RegisterIn(repo, req, freshId);
      r, repo := out.0, out.1;
    }

    /** `login`: reads the repository and changes nothing. */
    function Login(email: string, password: string): (r: Result<UserResponse, string>)
      reads this
      ensures r == LoginIn(repo, email, password)
    {
      LoginIn(repo, email, password)
    }
  }
}
