/**
 * The Mongoose `User` schema: the fields of a stored user record, which of them the schema
 * requires, the one that must be unique, and the defaults a new record takes.
 */
module UserModel {
  import opened Wrappers

  /** A document id (Mongo's `_id`). */
  type UserId = nat

  const DEFAULT_ROLE := "farmer"

  /** A stored user record. Times are milliseconds since the epoch. */
  datatype User = User(
    name: Option<string>,
    email: string,
    password: Option<string>,
    mobile: Option<string>,
    age: Option<int>,
    role: string,
    registrationDate: nat,
    address: Option<string>,
    city: Option<string>,
    state: Option<string>,
    zipCode: Option<int>,
    isVerified: bool,
    emailVerificationToken: Option<string>,
    emailVerificationTokenExpires: Option<nat>,
    passwordResetToken: Option<string>,
    passwordResetTokenExpires: Option<nat>)

  /**
   * What a caller hands to `User.create`: the paths a registration can give, each possibly absent.
   * `registrationDate` always takes its default, and the reset-token pair starts unset.
   */
  datatype NewUserDoc = NewUserDoc(
    name: Option<string>,
    email: string,
    password: Option<string>,
    mobile: Option<string>,
    age: Option<int>,
    role: Option<string>,
    address: Option<string>,
    city: Option<string>,
    state: Option<string>,
    zipCode: Option<int>,
    isVerified: Option<bool>,
    emailVerificationToken: Option<string>,
    emailVerificationTokenExpires: Option<nat>)

  /**
   * The record `User.create` builds from a document at time `now`: the given fields, `role`
   * defaulting to "farmer", `isVerified` to false and `registrationDate` to now; no reset token.
   */
  function Create(doc: NewUserDoc, now: nat): (u: User)
    ensures u.role == (if doc.role.Some? then doc.role.value else DEFAULT_ROLE)
    ensures u.isVerified <==> doc.isVerified == Some(true)
    ensures u.registrationDate == now
    ensures u.name == doc.name && u.email == doc.email && u.password == doc.password && u.mobile == doc.mobile
    ensures u.emailVerificationToken == doc.emailVerificationToken
    ensures u.emailVerificationTokenExpires == doc.emailVerificationTokenExpires
    ensures u.passwordResetToken.None? && u.passwordResetTokenExpires.None?
  {
    User(
      doc.name, doc.email, doc.password, doc.mobile, doc.age,
      if doc.role.Some? then doc.role.value else DEFAULT_ROLE,
      now, doc.address, doc.city, doc.state, doc.zipCode,
      if doc.isVerified.Some? then doc.isVerified.value else false,
      doc.emailVerificationToken, doc.emailVerificationTokenExpires, None, None)
  }

  /**
   * The schema's `required` validators: `name`, `email` and `password` must be present and, being
   * strings, non-empty. Nothing else is required.
   */
  predicate Validates(u: User): (ok: bool)
    ensures u.name.None? || u.name == Some("") || u.email == "" ==> !ok
    ensures u.password.None? || u.password == Some("") ==> !ok
  {
    u.name.Some? && u.name.value != "" && u.email != "" && u.password.Some? && u.password.value != ""
  }

  /** The unique index on `email`: no two stored records share an e-mail string. */
  ghost predicate EmailsUnique(users: map<UserId, User>): (unique: bool)
    ensures (forall a, b :: a in users && b in users ==> a == b) ==> unique
    ensures unique ==> forall a, b :: a in users && b in users && a != b ==> users[a].email != users[b].email
  {
    forall a, b :: a in users && b in users && users[a].email == users[b].email ==> a == b
  }

  /**
   * `mobile` is neither required nor unique, and the token fields are optional: a store of valid
   * records may hold two users with the same mobile number and no token fields at all.
   */
  lemma OptionalFieldsMayRepeatOrBeAbsent()
    ensures exists users: map<UserId, User> ::
      EmailsUnique(users) && (forall id :: id in users ==> Validates(users[id])) &&
      0 in users && 1 in users && users[0].mobile == users[1].mobile == Some("5551234567") &&
      users[0].emailVerificationToken.None? && users[0].emailVerificationTokenExpires.None? &&
      users[0].passwordResetToken.None? && users[0].passwordResetTokenExpires.None?
  {
    var doc := NewUserDoc(Some("Ann"), "ann@x.com", Some("h1"), Some("5551234567"), None, None,
                          None, None, None, None, None, None, None);
    var ann := Create(doc, 0);
    var bob := Create(doc.(name := Some("Bob"), email := "bob@x.com"), 0);
    var users := map[0 := ann, 1 := bob];
    assert users[0].email != users[1].email;
    assert EmailsUnique(users);
  }

  /** The identity claims a session token carries. */
  datatype Claims = Claims(id: UserId, name: Option<string>, email: string, role: string)

  function ClaimsOf(id: UserId, u: User): Claims {
    Claims(id, u.name, u.email, u.role)
  }

  /** A record as `select('-password')` returns it, or with `password` set to undefined. */
  function WithoutPassword(u: User): User {
    u.(password := None)
  }
}
