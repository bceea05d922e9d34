/**
 * The handlers of backend/src/controllers/authController.js over an in-memory
 * users collection. Signing a token (jsonwebtoken), hashing and comparing
 * passwords (bcrypt) and checking an email address are parameters.
 */
module AuthController {
  import opened Wrappers
  import opened Identity
  import opened UserSchema
  import Text

  const EmailInUse := "Email already in use. Please use a different email."
  const MissingCredentials := "Please provide email and password"
  const IncorrectLogin := "Incorrect email or password"
  const IncorrectCurrent := "Your current password is incorrect"
  /**
   * Stands for the text of an error the handler's catch block forwards (a
   * Mongoose validation or duplicate-key error, a failed `bcrypt.compare`):
   * that text comes from the library and is not modelled.
   */
  const LibraryErrorMessage := ""

  /** A registration never asks for admin: a requested `admin` becomes `user`, anything else passes. */
  function RequestedRole(role: Option<string>): (r: Option<string>)
    ensures role == Some("admin") ==> r == Some("user")
    ensures role != Some("admin") ==> r == role
  {
    if role == Some("admin") then Some("user") else role
  }

  /** Whatever role is requested, a registered user is never an admin. */
  lemma RegisteredRoleIsUser(role: Option<string>)
    requires RoleOk(RequestedRole(role))
    ensures RoleOf(RequestedRole(role)) == UserRole
  {
    if role.Some? && role.value != "admin" {
      assert ParseRole(role.value) != Some(AdminRole);
    }
  }

  /** Stored users are valid and under their own id; emails and usernames are unique. */
  ghost predicate UsersValid(users: map<UserId, User>) {
    && (forall id :: id in users ==> users[id].id == id && ValidStoredUser(users[id]))
    && (forall a, b :: a in users && b in users && a != b ==>
          users[a].email != users[b].email && users[a].username != users[b].username)
  }

  /** Adding a valid user under a fresh id with an unused email and username keeps the collection valid. */
  lemma AddKeepsUsersValid(users: map<UserId, User>, u: User)
    requires UsersValid(users) && u.id !in users && ValidStoredUser(u)
    requires forall id :: id in users ==> users[id].email != u.email && users[id].username != u.username
    ensures UsersValid(users[u.id := u])
  {
    var m := users[u.id := u];
    forall id | id in m ensures m[id].id == id && ValidStoredUser(m[id]) {
      if id != u.id { assert m[id] == users[id]; }
    }
    forall a, b | a in m && b in m && a != b
      ensures m[a].email != m[b].email && m[a].username != m[b].username
    {
      if a != u.id && b != u.id {
        assert m[a] == users[a] && m[b] == users[b];
      }
    }
  }

  /** Replacing a user's password by a hash keeps the collection valid. */
  lemma NewPasswordKeepsUsersValid(users: map<UserId, User>, id: UserId, hashed: string)
    requires UsersValid(users) && id in users
    ensures UsersValid(users[id := users[id].(password := Some(hashed))])
  {
    var u := users[id].(password := Some(hashed));
    assert ValidStoredUser(u);
  }

  /** The users collection, keyed by id. */
  class UserStore {
    var users: map<UserId, User>

    /** Stored users are valid and under their own id; emails and usernames are unique. */
    ghost predicate Valid()
      reads this
    {
      UsersValid(users)
    }

    predicate EmailTaken(email: string)
      reads this
    {
      exists id :: id in users && users[id].email == email
    }

    predicate UsernameTaken(username: string)
      reads this
    {
      exists id :: id in users && users[id].username == username
    }

    /** Some stored user has this email and `password` compares equal to its hash. */
    predicate Matches(email: string, password: string, compare: (string, string) -> bool)
      reads this
    {
      exists id :: id in users && users[id].email == email && users[id].password.Some?
        && compare(password, users[id].password.value)
    }

    /** The stored hash of user `id` compares equal to `password`. */
    predicate CurrentAccepted(id: UserId, password: string, compare: (string, string) -> bool)
      reads this
      requires id in users
    {
      users[id].password.Some? && compare(password, users[id].password.value)
    }

    constructor()
      ensures Valid() && users == map[]
    {
      users := map[];
    }

    /**
     * `register`: 400 when the (lower-cased) email is taken, when validation
     * fails or when the username is taken; otherwise 201, the new user is
     * stored with a hashed password and sent stripped with a token.
     */
    method Register(b: RegisterBody, newId: UserId, isEmail: string -> bool, hash: string -> string,
                    compare: (string, string) -> bool, sign: UserId -> string)
      returns (code: int, message: string, sent: Option<User>, token: Option<string>)
      requires Valid() && newId !in users
      modifies this
      ensures Valid()
      ensures code != 201 ==> code == 400 && users == old(users) && sent == None && token == None
      ensures b.email.Some? && old(EmailTaken(Text.Lower(b.email.value))) ==> code == 400 && message == EmailInUse
      ensures code == 201 <==>
        && b.email.Some? && !old(EmailTaken(Text.Lower(b.email.value)))
        && UserValid(b.(role := RequestedRole(b.role)), isEmail)
        && !old(UsernameTaken(Text.Trim(b.username.value)))
      ensures code == 201 ==>
        && users == old(users)[newId := NewUser(newId, b.(role := RequestedRole(b.role)), isEmail, hash)]
        && users[newId].role == UserRole
        && sent == Some(Strip(users[newId])) && token == Some(sign(newId))
      ensures code == 201 && compare(b.password.value, hash(b.password.value)) ==>
        Matches(Text.Lower(b.email.value), b.password.value, compare)
    {
      sent, token := None, None;
      if b.email.Some? && EmailTaken(Text.Lower(b.email.value)) {
        return 400, EmailInUse, None, None;
      }
      var body := b.(role := RequestedRole(b.role));
      if !UserValid(body, isEmail) {
        return 400, LibraryErrorMessage, None, None;
      }
      if UsernameTaken(Text.Trim(b.username.value)) {
        return 400, LibraryErrorMessage, None, None;
      }
      var u := NewUser(newId, body, isEmail, hash);
      NewUserIsValid(newId, body, isEmail, hash);
      RegisteredRoleIsUser(b.role);
      AddKeepsUsersValid(users, u);
      users := users[newId := u];
      assert users[newId].email == Text.Lower(b.email.value);
      code, message := 201, "";
      sent, token := Some(Strip(u)), Some(sign(newId));
    }

    /**
     * `login`: 400 when the email or the password is missing or empty; the
     * same 401 and message for an unknown email and for a wrong password;
     * otherwise 200 with the user stripped and a token.
     */
    method Login(email: Option<string>, password: Option<string>, compare: (string, string) -> bool, sign: UserId -> string)
      returns (code: int, message: string, sent: Option<User>, token: Option<string>)
      requires Valid()
      ensures (email.None? || email == Some("") || password.None? || password == Some("")) ==>
        code == 400 && message == MissingCredentials
      ensures code == 401 <==>
        email.Some? && email != Some("") && password.Some? && password != Some("")
        && !Matches(Text.Lower(email.value), password.value, compare)
      ensures code == 401 ==> message == IncorrectLogin
      ensures code == 200 <==>
        email.Some? && email != Some("") && password.Some? && password != Some("")
        && Matches(Text.Lower(email.value), password.value, compare)
      ensures code == 200 ==>
        && sent.Some? && sent.value.id in users && sent == Some(Strip(users[sent.value.id]))
        && sent.value.email == Text.Lower(email.value) && token == Some(sign(sent.value.id))
      ensures code != 200 ==> sent == None && token == None
    {
      if email.None? || email.value == "" || password.None? || password.value == "" {
        return 400, MissingCredentials, None, None;
      }
      var key := Text.Lower(email.value);
      if !EmailTaken(key) {
        return 401, IncorrectLogin, None, None;
      }
      var id :| id in users && users[id].email == key;
      if !compare(password.value, users[id].password.value) {
        return 401, IncorrectLogin, None, None;
      }
      return 200, "", Some(Strip(users[id])), Some(sign(id));
    }

    /**
     * `updatePassword`: 400 when the caller's user is gone or no current
     * password is given; 401 and no change when the current password does not
     * compare equal; 400 when the new one fails validation; otherwise 200, the
     * new password is stored hashed and the user is sent stripped with a token.
     */
    method UpdatePassword(caller: Caller, current: Option<string>, newPassword: Option<string>,
                          compare: (string, string) -> bool, hash: string -> string, sign: UserId -> string)
      returns (code: int, message: string, sent: Option<User>, token: Option<string>)
      requires Valid()
      modifies this
      ensures Valid()
      ensures code != 200 ==> users == old(users) && sent == None && token == None
      ensures caller.id !in old(users) || current.None? ==> code == 400
      ensures caller.id in old(users) && current.Some? && !old(CurrentAccepted(caller.id, current.value, compare)) ==>
        code == 401 && message == IncorrectCurrent
      ensures caller.id in old(users) && current.Some? && old(CurrentAccepted(caller.id, current.value, compare)) ==>
        (newPassword.None? || !PasswordOk(newPassword.value)) ==> code == 400
      ensures caller.id in old(users) && current.Some? && old(CurrentAccepted(caller.id, current.value, compare)) ==>
        newPassword.Some? && PasswordOk(newPassword.value) ==>
        && code == 200
        && users == old(users)[caller.id := WithNewPassword(old(users)[caller.id], newPassword.value, hash)]
        && sent == Some(Strip(users[caller.id])) && token == Some(sign(caller.id))
      ensures code == 200 && compare(newPassword.value, hash(newPassword.value)) && Some(newPassword.value) != old(users)[caller.id].password ==>
        Matches(users[caller.id].email, newPassword.value, compare)
    {
      if caller.id !in users || current.None? {
        return 400, LibraryErrorMessage, None, None;
      }
      var u := users[caller.id];
      if !CurrentAccepted(caller.id, current.value, compare) {
        return 401, IncorrectCurrent, None, None;
      }
      if newPassword.None? || !PasswordOk(newPassword.value) {
        return 400, LibraryErrorMessage, None, None;
      }
      var saved := WithNewPassword(u, newPassword.value, hash);
      NewPasswordKeepsUsersValid(users, caller.id, saved.password.value);
      assert saved == u.(password := Some(saved.password.value));
      users := users[caller.id := saved];
      assert users[caller.id].email == saved.email;
      return 200, "", Some(Strip(saved)), Some(sign(caller.id));
    }
  }
}
