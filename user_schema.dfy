/**
 * The user schema of backend/src/models/userModel.js: field constraints and
 * defaults, the pre-save hook that hashes a modified password, and the
 * stripping of the password from what is sent back. Hashing and comparing
 * (bcrypt) and the email check (validator.isEmail) are parameters.
 */
module UserSchema {
  import opened Wrappers
  import opened Identity
  import Text

  /** A user document; `password` is `None` once stripped from a response. */
  datatype User = User(
    id: UserId,
    username: string,
    email: string,
    password: Option<string>,
    role: Role,
    profilePicture: string)

  /** `username`: at least 3 characters after trimming. */
  predicate UsernameOk(raw: string) {
    |Text.Trim(raw)| >= 3
  }

  /** `password`: at least 8 characters, checked on the plain text before hashing. */
  predicate PasswordOk(p: string) {
    |p| >= 8
  }

  /** `role`: absent (the default applies) or one of the two role names. */
  predicate RoleOk(role: Option<string>) {
    role.None? || ParseRole(role.value).Some?
  }

  function RoleOf(role: Option<string>): (r: Role)
    requires RoleOk(role)
    ensures role.None? ==> r == UserRole
    ensures role.Some? ==> RoleName(r) == role.value
  {
    if role.None? then UserRole else ParseRole(role.value).value
  }

  /** The fields of a registration body. */
  datatype RegisterBody = RegisterBody(
    username: Option<string>,
    email: Option<string>,
    password: Option<string>,
    role: Option<string>)

  /** Document validation of a new user (the email is lower-cased before it is checked). */
  predicate UserValid(b: RegisterBody, isEmail: string -> bool) {
    && b.username.Some? && UsernameOk(b.username.value)
    && b.email.Some? && isEmail(Text.Lower(b.email.value))
    && b.password.Some? && PasswordOk(b.password.value)
    && RoleOk(b.role)
  }

  /** What every stored user satisfies: a trimmed valid username, a lower-case email, a password hash. */
  ghost predicate ValidStoredUser(u: User) {
    && UsernameOk(u.username) && Text.Trim(u.username) == u.username
    && Text.Lower(u.email) == u.email
    && u.password.Some?
  }

  /**
   * The pre-save hook: a password that was modified is replaced by its hash;
   * on any other save the document, password included, is left as it is.
   */
  function PreSave(u: User, passwordModified: bool, hash: string -> string): (r: User)
    requires u.password.Some?
    ensures !passwordModified ==> r == u
    ensures passwordModified ==> r.password == Some(hash(u.password.value))
    ensures r == u.(password := r.password)
  {
    if passwordModified then u.(password := Some(hash(u.password.value))) else u
  }

  /**
   * `User.create`: username trimmed, email lower-cased, role defaulted, no
   * profile picture, and the password hashed by the pre-save hook.
   */
  function NewUser(id: UserId, b: RegisterBody, isEmail: string -> bool, hash: string -> string): (u: User)
    requires UserValid(b, isEmail)
    ensures u.id == id && u.username == Text.Trim(b.username.value) && u.email == Text.Lower(b.email.value)
    ensures u.password == Some(hash(b.password.value))
    ensures u.role == RoleOf(b.role) && u.profilePicture == ""
  {
    var doc := User(id, Text.Trim(b.username.value), Text.Lower(b.email.value), Some(b.password.value), RoleOf(b.role), "");
    PreSave(doc, true, hash)
  }

  /** A new user satisfies what every stored user satisfies. */
  lemma NewUserIsValid(id: UserId, b: RegisterBody, isEmail: string -> bool, hash: string -> string)
    requires UserValid(b, isEmail)
    ensures ValidStoredUser(NewUser(id, b, isEmail, hash))
  {
    Text.TrimIdempotent(b.username.value);
    Text.LowerIdempotent(b.email.value);
  }

  /** `user.password = newPassword; user.save()`: hashed when it differs from what is stored. */
  function WithNewPassword(u: User, p: string, hash: string -> string): (r: User)
    ensures Some(p) != u.password ==> r.password == Some(hash(p))
    ensures Some(p) == u.password ==> r == u
    ensures r == u.(password := r.password)
  {
    PreSave(u.(password := Some(p)), Some(p) != u.password, hash)
  }

  /** `user.password = undefined` before a user is sent: only the password goes. */
  function Strip(u: User): (r: User)
    ensures r.password.None?
    ensures r.(password := u.password) == u
  {
    u.(password := None)
  }
}
