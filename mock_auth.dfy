/**
 * The mock branch of src/services/authService.js, which is the live one: a
 * module-level list of users mirrored in browser storage, and a session
 * (token and user) held in storage too. Storage keys are fields; a value that
 * JavaScript could leave `undefined` is an `Option`. The clock that names new
 * users is a parameter.
 */
module MockAuth {
  import opened Wrappers
  import Text

  datatype MockUser = MockUser(
    id: string,
    username: string,
    email: Option<string>,
    role: string,
    name: string,
    password: Option<string>)

  /** What a registration form sends. */
  datatype RegisterData = RegisterData(
    username: Option<string>,
    email: Option<string>,
    password: Option<string>,
    name: Option<string>)

  /** What a login form sends: either field may carry the email. */
  datatype Credentials = Credentials(
    emailOrPhone: Option<string>,
    email: Option<string>,
    password: Option<string>)

  const MockToken := "mock-token"

  /** The two users seeded when storage holds none. */
  const DefaultUsers: seq<MockUser> := [
    MockUser("admin-123", "admin", Some("admin@example.com"), "admin", "Admin User", Some("admin123")),
    MockUser("user-123", "user1", Some("user1@example.com"), "user", "Regular User", Some("password123"))
  ]

  /** JavaScript truthiness of an optional string: present and non-empty. */
  predicate Truthy(s: Option<string>) {
    s.Some? && s.value != ""
  }

  /** A copy of the user without its password, as kept in the session and returned. */
  function WithoutPassword(u: MockUser): (r: MockUser)
    ensures r.password.None?
    ensures r.(password := u.password) == u
  {
    u.(password := None)
  }

  /** `MOCK_USERS.find(user => user.email === email)` succeeds. */
  predicate EmailUsed(us: seq<MockUser>, email: Option<string>) {
    exists i :: 0 <= i < |us| && us[i].email == email
  }

  /** The login lookup's test for one user. */
  predicate LoginMatch(u: MockUser, c: Credentials) {
    u.email == c.emailOrPhone || u.email == c.email
  }

  /** The index `find` stops at: the first user passing the login test. */
  function FindLoginUser(us: seq<MockUser>, c: Credentials): (r: Option<nat>)
    ensures r.Some? ==> r.value < |us| && LoginMatch(us[r.value], c)
    ensures r.Some? ==> forall j :: 0 <= j < r.value ==> !LoginMatch(us[j], c)
    ensures r.None? ==> forall j :: 0 <= j < |us| ==> !LoginMatch(us[j], c)
  {
    if us == [] then None
    else if LoginMatch(us[0], c) then Some(0)
    else match FindLoginUser(us[1..], c)
      case None => None
      case Some(k) => Some(k + 1)
  }

  /** The index `findIndex` stops at: the first user with the given id. */
  function FindIndexById(us: seq<MockUser>, id: string): (r: Option<nat>)
    ensures r.Some? ==> r.value < |us| && us[r.value].id == id
    ensures r.Some? ==> forall j :: 0 <= j < r.value ==> us[j].id != id
    ensures r.None? ==> forall j :: 0 <= j < |us| ==> us[j].id != id
  {
    if us == [] then None
    else if us[0].id == id then Some(0)
    else match FindIndexById(us[1..], id)
      case None => None
      case Some(k) => Some(k + 1)
  }

  /** The user a successful registration appends. */
  function NewMockUser(data: RegisterData, now: nat): (u: MockUser)
    requires Truthy(data.username) || data.email.Some?
    ensures u.id == "user-" + Text.NatToString(now)
    ensures u.role == "user" && u.email == data.email && u.password == data.password
    ensures Truthy(data.username) ==> u.username == data.username.value
    ensures !Truthy(data.username) ==> u.username == Text.Split(data.email.value, '@')[0]
    ensures u.name == if Truthy(data.name) then data.name.value else "New User"
  {
    MockUser(
      "user-" + Text.NatToString(now),
      if Truthy(data.username) then data.username.value else Text.Split(data.email.value, '@')[0],
      data.email,
      "user",
      if Truthy(data.name) then data.name.value else "New User",
      data.password)
  }

  /** The default username is the part of the email before its first `@`. */
  lemma DefaultUsernameIsLocalPart(data: RegisterData, now: nat)
    requires !Truthy(data.username) && data.email.Some?
    ensures var u := NewMockUser(data, now); var e := data.email.value;
      && |u.username| <= |e| && e[..|u.username|] == u.username && '@' !in u.username
      && (|u.username| == |e| || e[|u.username|] == '@')
  {
    Text.SplitHead(data.email.value, '@');
  }

  /**
   * A user appended after none with the same email is the one a login by that
   * email finds, provided no earlier user matches the other field.
   */
  lemma {:induction false} AppendedUserIsFound(us: seq<MockUser>, u: MockUser, c: Credentials)
    requires c.emailOrPhone == u.email || c.email == u.email
    requires forall i :: 0 <= i < |us| ==> !LoginMatch(us[i], c)
    ensures FindLoginUser(us + [u], c) == Some(|us|)
  {
    if us != [] {
      assert (us + [u])[1..] == us[1..] + [u];
      AppendedUserIsFound(us[1..], u, c);
    }
  }

  /** Logging in with the email and password just registered finds the new user and accepts it. */
  lemma RegisteredUserCanLogIn(us: seq<MockUser>, data: RegisterData, now: nat)
    requires !EmailUsed(us, data.email) && (Truthy(data.username) || data.email.Some?)
    ensures var c := Credentials(data.email, data.email, data.password);
      var all := us + [NewMockUser(data, now)];
      && FindLoginUser(all, c) == Some(|us|)
      && all[|us|].password == c.password
  {
    var c := Credentials(data.email, data.email, data.password);
    AppendedUserIsFound(us, NewMockUser(data, now), c);
  }

  /**
   * The message of the TypeError `userData.email.split('@')` throws when the
   * email is absent. The text is the V8 engine's wording; other engines word it
   * differently.
   */
  const MissingEmailMessage := "Cannot read properties of undefined (reading 'split')"

  class MockAuthService {
    /** `MOCK_USERS`: this tab's copy of the list, which may lag behind storage. */
    var users: seq<MockUser>
    /**
     * Storage key `mockUsers`, shared by every tab: another tab may write it
     * between two calls, so it need not equal `users`.
     */
    var storedUsers: Option<seq<MockUser>>
    /** Storage key `token`. */
    var token: Option<string>
    /** Storage key `user`. */
    var sessionUser: Option<MockUser>

    /** The session user carries no password, and a token is stored exactly when a user is. */
    ghost predicate Valid()
      reads this
    {
      && (sessionUser.Some? ==> sessionUser.value.password.None?)
      && (token.Some? <==> sessionUser.Some?)
      && (token.Some? ==> token.value != "")
    }

    /** Loading the module: storage as found, then `MOCK_USERS = getInitialMockUsers()`. */
    constructor(stored: Option<seq<MockUser>>, storedToken: Option<string>, storedUser: Option<MockUser>)
      requires storedUser.Some? ==> storedUser.value.password.None?
      requires storedToken.Some? <==> storedUser.Some?
      requires storedToken.Some? ==> storedToken.value != ""
      ensures Valid()
      ensures stored.Some? ==> users == stored.value
      ensures stored.None? ==> users == DefaultUsers
      ensures stored.Some? ==> storedUsers == stored
      ensures stored.None? ==> storedUsers == Some(DefaultUsers)
      ensures token == storedToken && sessionUser == storedUser
    {
      users := [];
      storedUsers := stored;
      token := storedToken;
      sessionUser := storedUser;
      new;
      users := GetInitialMockUsers();
    }

    /** `getInitialMockUsers`: the stored list, or the two defaults, seeded into storage. */
    method GetInitialMockUsers() returns (r: seq<MockUser>)
      modifies this`storedUsers
      ensures old(storedUsers).Some? ==> r == old(storedUsers).value && storedUsers == old(storedUsers)
      ensures old(storedUsers).None? ==> r == DefaultUsers && storedUsers == Some(DefaultUsers)
    {
      if storedUsers.Some? {
        return storedUsers.value;
      }
      storedUsers := Some(DefaultUsers);
      return DefaultUsers;
    }

    function CurrentUser(): (r: Option<MockUser>)
      reads this
      requires Valid()
      ensures r.Some? ==> r.value.password.None?
      ensures r.Some? <==> IsLoggedIn()
    {
      sessionUser
    }

    /** `isLoggedIn`: a non-empty token is stored. */
    predicate IsLoggedIn()
      reads this
      ensures IsLoggedIn() ==> token.Some?
      ensures token.Some? && token.value != "" ==> IsLoggedIn()
    {
      token.Some? && token.value != ""
    }

    /** `getUserRole`: the session user's role, or nothing when no user is stored. */
    function UserRole(): (r: Option<string>)
      reads this
      ensures r.None? <==> sessionUser.None?
      ensures r.Some? ==> r.value == sessionUser.value.role
    {
      if sessionUser.Some? then Some(sessionUser.value.role) else None
    }

    /** `isAdmin`: the session user's role is `admin`. */
    predicate IsAdmin()
      reads this
      ensures IsAdmin() ==> sessionUser.Some? && sessionUser.value.role == "admin"
      ensures sessionUser.Some? && sessionUser.value.role == "admin" ==> IsAdmin()
    {
      UserRole() == Some("admin")
    }

    /**
     * `register`: an email some user already has is refused and nothing
     * changes; so is a registration with neither username nor email (splitting
     * a missing email throws); otherwise the new user is appended, saved, and
     * becomes the session user without its password.
     */
    method Register(data: RegisterData, now: nat) returns (outcome: Result<MockUser, string>)
      requires Valid()
      modifies this
      ensures Valid()
      ensures EmailUsed(old(users), data.email) ==> outcome == Failure("Email already exists")
      ensures outcome.Failure? ==>
        users == old(users) && storedUsers == old(storedUsers) && token == old(token) && sessionUser == old(sessionUser)
      ensures outcome.Success? <==> !EmailUsed(old(users), data.email) && (Truthy(data.username) || data.email.Some?)
      ensures outcome.Success? ==>
        && users == old(users) + [NewMockUser(data, now)]
        && storedUsers == Some(users)
        && outcome.value == WithoutPassword(NewMockUser(data, now))
        && sessionUser == Some(outcome.value) && token == Some(MockToken)
        && IsLoggedIn() && !IsAdmin()
    {
      if EmailUsed(users, data.email) {
        return Failure("Email already exists");
      }
      if !Truthy(data.username) && data.email.None? {
        return Failure(MissingEmailMessage);
      }
      var u := NewMockUser(data, now);
      users := users + [u];
      storedUsers := Some(users);
      token := Some(MockToken);
      sessionUser := Some(WithoutPassword(u));
      return Success(WithoutPassword(u));
    }

    /**
     * `login`: the list is reloaded from storage, so users another tab saved
     * are seen (and the defaults are seeded when storage is empty); the first user whose email
     * equals either credential field is checked; no such user or a different
     * password throws, and only success writes the session.
     */
    method Login(c: Credentials) returns (outcome: Result<MockUser, string>)
      requires Valid()
      modifies this
      ensures Valid()
      ensures old(storedUsers).Some? ==> users == old(storedUsers).value && storedUsers == old(storedUsers)
      ensures old(storedUsers).None? ==> users == DefaultUsers && storedUsers == Some(DefaultUsers)
      ensures FindLoginUser(users, c).None? ==> outcome == Failure("User not found")
      ensures FindLoginUser(users, c).Some? && users[FindLoginUser(users, c).value].password != c.password ==>
        outcome == Failure("Incorrect password")
      ensures outcome.Failure? ==> token == old(token) && sessionUser == old(sessionUser)
      ensures FindLoginUser(users, c).Some? && users[FindLoginUser(users, c).value].password == c.password ==>
        && outcome == Success(WithoutPassword(users[FindLoginUser(users, c).value]))
        && sessionUser == Some(outcome.value) && token == Some(MockToken)
    {
      users := GetInitialMockUsers();
      var found := FindLoginUser(users, c);
      if found.None? {
        return Failure("User not found");
      }
      var u := users[found.value];
      if u.password != c.password {
        return Failure("Incorrect password");
      }
      token := Some(MockToken);
      sessionUser := Some(WithoutPassword(u));
      return Success(WithoutPassword(u));
    }

    /** `logout`: the token and the session user are removed; the user list stays. */
    method Logout()
      requires Valid()
      modifies this
      ensures Valid()
      ensures token == None && sessionUser == None && users == old(users) && storedUsers == old(storedUsers)
      ensures !IsLoggedIn() && UserRole() == None && !IsAdmin()
    {
      token := None;
      sessionUser := None;
    }

    /**
     * `updatePassword`: no session user throws `Not logged in`; a session user
     * whose id is not in the list throws `User not found`; otherwise that
     * user's entry gets the new password, with no check of the current one,
     * and the list is saved. Every other entry is untouched.
     */
    method UpdatePassword(newPassword: Option<string>) returns (outcome: Result<string, string>)
      requires Valid()
      modifies this
      ensures Valid() && token == old(token) && sessionUser == old(sessionUser)
      ensures sessionUser.None? ==>
        outcome == Failure("Not logged in") && users == old(users) && storedUsers == old(storedUsers)
      ensures sessionUser.Some? && FindIndexById(old(users), sessionUser.value.id).None? ==>
        outcome == Failure("User not found") && users == old(users) && storedUsers == old(storedUsers)
      ensures sessionUser.Some? && FindIndexById(old(users), sessionUser.value.id).Some? ==>
        var k := FindIndexById(old(users), sessionUser.value.id).value;
        && outcome == Success("Password updated successfully")
        && |users| == |old(users)|
        && users[k] == old(users)[k].(password := newPassword)
        && (forall j :: 0 <= j < |users| && j != k ==> users[j] == old(users)[j])
        && storedUsers == Some(users)
    {
      if sessionUser.None? {
        return Failure("Not logged in");
      }
      var found := FindIndexById(users, sessionUser.value.id);
      if found.None? {
        return Failure("User not found");
      }
      var k := found.value;
      users := users[k := users[k].(password := newPassword)];
      storedUsers := Some(users);
      return Success("Password updated successfully");
    }
  }
}
