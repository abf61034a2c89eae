/**
 * The user controller's account workflow over a store of user records: register, verify the
 * e-mail address, resend the verification mail, log in, read, update and delete. Foreign calls are
 * parameters: the 32 random bytes of `crypto.randomBytes`, the salted bcrypt hash and comparison,
 * the JWT signer, the clock (`now`, in milliseconds) and whether the mail relay accepted a mail.
 */
module UserController {
  import opened Wrappers
  import opened Js
  import opened UserModel
  import EmailRegex

  /** `24 * 60 * 60 * 1000`: a verification token is redeemable for one day, in milliseconds. */
  const VERIFICATION_TTL_MS: nat := 86_400_000

  /** The `expiresIn: '24h'` of a session token, in seconds. */
  const SESSION_TTL_S: nat := 86_400

  const FILL_ALL_FIELDS := "Please fill all fields"
  const INVALID_EMAIL := "Please enter a valid email address"
  const USER_EXISTS := "User already exists with this email"
  const REGISTERED := "User registered successfully! Please check your email to verify your account."
  const REGISTERED_MAIL_FAILED :=
    "User registered successfully, but verification email could not be sent. Please contact support."
  const TOKEN_REQUIRED := "Verification token is required"
  const TOKEN_INVALID := "Invalid or expired verification token"
  const VERIFIED := "Email verified successfully! You can now log in."
  const EMAIL_REQUIRED := "Email is required"
  const USER_NOT_FOUND := "User not found"
  const ALREADY_VERIFIED := "Email is already verified"
  const MAIL_SENT := "Verification email sent successfully"
  const MAIL_FAILED := "Failed to send verification email"
  const INVALID_CREDENTIALS := "Invalid email or password"
  const VERIFY_FIRST :=
    "Please verify your email address before logging in. Check your inbox for verification email."
  const SUCCESS := "Success"
  const DELETED := "User deleted successfully"

  /** The JSON a handler answers with, besides its status and message. */
  datatype Body =
    | NoBody
    | UserBody(id: UserId, user: User)
    | SessionBody(id: UserId, user: User, token: string)
    | UsersBody(users: map<UserId, User>)

  datatype Reply = Reply(status: nat, message: string, body: Body)

  /** A verification mail handed to the relay: recipient, token and the name it greets. */
  datatype Mail = Mail(to: string, token: string, displayName: Option<string>)

  /** What `jwt.sign` is given: the `user` claim and the lifetime in seconds. */
  datatype SessionPayload = SessionPayload(user: Claims, expiresIn: nat)

  /** The registration request body, as far as `createUser` reads it. */
  datatype RegisterBody = RegisterBody(
    firstname: Option<string>,
    lastname: Option<string>,
    email: Option<string>,
    password: Option<string>,
    role: Option<string>)

  /**
   * The body of an update request: any modelled schema path, `email` and `password` included
   * (`avatar` and `bookings` are not part of the record).
   */
  datatype UserPatch = UserPatch(
    name: Option<string>,
    email: Option<string>,
    password: Option<string>,
    mobile: Option<string>,
    age: Option<int>,
    role: Option<string>,
    registrationDate: Option<nat>,
    address: Option<string>,
    city: Option<string>,
    state: Option<string>,
    zipCode: Option<int>,
    isVerified: Option<bool>,
    emailVerificationToken: Option<string>,
    emailVerificationTokenExpires: Option<nat>,
    passwordResetToken: Option<string>,
    passwordResetTokenExpires: Option<nat>)

  /** An octet of `crypto.randomBytes`. */
  newtype Byte = x: int | 0 <= x < 256

  const HEX_DIGITS := "0123456789abcdef"

  /**
   * `buffer.toString('hex')`: two lower-case hexadecimal digits per byte, in byte order, the high
   * nibble first.
   */
  function Hex(bytes: seq<Byte>): (s: string)
    ensures |s| == 2 * |bytes|
    ensures forall k :: 0 <= k < |bytes| ==>
      s[2 * k] == HEX_DIGITS[bytes[k] as int / 16] && s[2 * k + 1] == HEX_DIGITS[bytes[k] as int % 16]
    ensures forall k :: 0 <= k < |s| ==> s[k] in HEX_DIGITS
  {
    seq(2 * |bytes|, i requires 0 <= i < 2 * |bytes| =>
      var b := bytes[i / 2] as int;
      if i % 2 == 0 then HEX_DIGITS[b / 16] else HEX_DIGITS[b % 16])
  }

  /** The sixteen digits are distinct, so a digit names its value. */
  lemma HexDigitsDistinct(x: nat, y: nat)
    requires x < 16 && y < 16 && HEX_DIGITS[x] == HEX_DIGITS[y]
    ensures x == y
  {
  }

  /** A byte value is determined by its two hex digits. */
  lemma ByteFromDigits(x: nat, y: nat)
    requires x < 256 && y < 256
    requires HEX_DIGITS[x / 16] == HEX_DIGITS[y / 16] && HEX_DIGITS[x % 16] == HEX_DIGITS[y % 16]
    ensures x == y
  {
    HexDigitsDistinct(x / 16, y / 16);
    HexDigitsDistinct(x % 16, y % 16);
  }

  /** Distinct random bytes give distinct tokens: the hex text determines the bytes. */
  lemma HexInjective(a: seq<Byte>, b: seq<Byte>)
    requires Hex(a) == Hex(b)
    ensures a == b
  {
    var s := Hex(a);
    assert |a| == |b|;
    forall k | 0 <= k < |a|
      ensures a[k] == b[k]
    {
      var x: nat, y: nat := a[k] as int, b[k] as int;
      assert s[2 * k] == HEX_DIGITS[x / 16] && s[2 * k] == HEX_DIGITS[y / 16];
      assert s[2 * k + 1] == HEX_DIGITS[x % 16] && s[2 * k + 1] == HEX_DIGITS[y % 16];
      ByteFromDigits(x, y);
    }
  }

  /**
   * The checks `createUser` makes before it reads the store, in order: every one of firstname,
   * lastname, email, password and role present and non-empty, then the e-mail pattern.
   */
  function RegistrationError(body: RegisterBody): (err: Option<string>)
    ensures err.None? <==>
      Truthy(body.firstname) && Truthy(body.lastname) && Truthy(body.email) && Truthy(body.password) &&
      Truthy(body.role) && EmailRegex.Matches(body.email.value)
    ensures err == Some(FILL_ALL_FIELDS) <==>
      !(Truthy(body.firstname) && Truthy(body.lastname) && Truthy(body.email) && Truthy(body.password) &&
        Truthy(body.role))
    ensures err.Some? ==> err.value in {FILL_ALL_FIELDS, INVALID_EMAIL}
  {
    if !(Truthy(body.firstname) && Truthy(body.lastname) && Truthy(body.email) && Truthy(body.password) &&
         Truthy(body.role)) then Some(FILL_ALL_FIELDS)
    else if !EmailRegex.Test(body.email.value) then Some(INVALID_EMAIL)
    else None
  }

  /** The `${firstname} ${lastname}` the controller greets a new user with. */
  function FullName(body: RegisterBody): string
    requires body.firstname.Some? && body.lastname.Some?
  {
    body.firstname.value + " " + body.lastname.value
  }

  /**
   * The document `createUser` passes to `User.create`, as written: `firstname` and `lastname` are
   * not paths of the schema, which drops them, so `name` stays unset.
   */
  function AsWrittenDoc(body: RegisterBody, token: string, expires: nat, hashed: string): NewUserDoc
    requires RegistrationError(body).None?
  {
    NewUserDoc(None, body.email.value, Some(hashed), None, None, body.role,
               None, None, None, None, Some(false), Some(token), Some(expires))
  }

  /** As written, the created record misses the required `name`, so the schema rejects every registration. */
  lemma AsWrittenRecordFailsSchema(body: RegisterBody, token: string, expires: nat, hashed: string, now: nat)
    requires RegistrationError(body).None?
    ensures !Validates(Create(AsWrittenDoc(body, token, expires, hashed), now))
  {
  }

  /** The record a registration stores: the as-written document with `name` set to the full name. */
  function NewRecord(body: RegisterBody, now: nat, random: seq<Byte>, hasher: string -> string): (u: User)
    requires RegistrationError(body).None?
    ensures !u.isVerified
    ensures u.emailVerificationToken == Some(Hex(random))
    ensures u.emailVerificationTokenExpires == Some(now + VERIFICATION_TTL_MS)
    ensures u.password == Some(hasher(body.password.value))
    ensures u.email == body.email.value && u.role == body.role.value && u.name == Some(FullName(body))
  {
    var doc := AsWrittenDoc(body, Hex(random), now + VERIFICATION_TTL_MS, hasher(body.password.value));
    Create(doc.(name := Some(FullName(body))), now)
  }

  /** With the full name filled in, the stored record passes every `required` validator of the schema. */
  lemma NewRecordValidates(body: RegisterBody, now: nat, random: seq<Byte>, hasher: string -> string)
    requires RegistrationError(body).None?
    requires hasher(body.password.value) != ""
    ensures Validates(NewRecord(body, now, random, hasher))
  {
  }

  /** Some stored record already has this e-mail string (the lookup is exact: no case folding). */
  ghost predicate EmailTaken(users: map<UserId, User>, email: string) {
    exists id :: id in users && users[id].email == email
  }

  /** The verification lookup: the stored token equals `token` and its expiry is strictly after `now`. */
  predicate TokenMatches(u: User, token: string, now: nat): (b: bool)
    ensures u.emailVerificationToken.None? || u.emailVerificationTokenExpires.None? ==> !b
    ensures b ==> u.emailVerificationToken.value == token && now < u.emailVerificationTokenExpires.value
  {
    u.emailVerificationToken == Some(token) &&
    u.emailVerificationTokenExpires.Some? && u.emailVerificationTokenExpires.value > now
  }

  ghost predicate Redeemable(users: map<UserId, User>, token: string, now: nat) {
    exists id :: id in users && TokenMatches(users[id], token, now)
  }

  /** A redeemed record: verified, with both verification fields cleared. */
  function Redeem(u: User): (r: User)
    ensures r.isVerified && r.emailVerificationToken.None? && r.emailVerificationTokenExpires.None?
    ensures r.email == u.email && r.password == u.password && r.name == u.name && r.role == u.role
  {
    u.(isVerified := true, emailVerificationToken := None, emailVerificationTokenExpires := None)
  }

  /** A record with a fresh verification token, redeemable for one more day from `now`. */
  function Reissue(u: User, token: string, now: nat): (r: User)
    ensures r.emailVerificationToken == Some(token)
    ensures r.emailVerificationTokenExpires == Some(now + VERIFICATION_TTL_MS)
    ensures r.isVerified == u.isVerified && r.email == u.email && r.password == u.password && r.name == u.name
  {
    u.(emailVerificationToken := Some(token), emailVerificationTokenExpires := Some(now + VERIFICATION_TTL_MS))
  }

  /** A token whose expiry is not after `now` is refused, whatever its value. */
  lemma ExpiredTokenRejected(u: User, token: string, now: nat)
    requires u.emailVerificationTokenExpires.Some? && u.emailVerificationTokenExpires.value <= now
    ensures !TokenMatches(u, token, now)
  {
  }

  /**
   * A freshly registered record is redeemed by exactly the token it was issued, and only until a day
   * after registration.
   */
  lemma IssuedTokenRedeemable(body: RegisterBody, now: nat, random: seq<Byte>, hasher: string -> string,
                              token: string, later: nat)
    requires RegistrationError(body).None?
    ensures TokenMatches(NewRecord(body, now, random, hasher), token, later) <==>
      token == Hex(random) && later < now + VERIFICATION_TTL_MS
  {
  }

  /**
   * Once the only record holding a token has redeemed it, the same token redeems nothing, at any
   * later time.
   */
  lemma SecondRedemptionFails(users: map<UserId, User>, id: UserId, token: string, later: nat)
    requires id in users
    requires forall j :: j in users && j != id ==> users[j].emailVerificationToken != Some(token)
    ensures !Redeemable(users[id := Redeem(users[id])], token, later)
  {
    var after := users[id := Redeem(users[id])];
    forall j | j in after
      ensures !TokenMatches(after[j], token, later)
    {
      if j == id {
        assert after[j].emailVerificationToken.None?;
      }
    }
  }

  /** Resending replaces the token: the previous one no longer redeems the record. */
  lemma ReissueRevokesOldToken(u: User, previous: string, token: string, now: nat, later: nat)
    requires previous != token
    ensures !TokenMatches(Reissue(u, token, now), previous, later)
    ensures TokenMatches(Reissue(u, token, now), token, later) <==> later < now + VERIFICATION_TTL_MS
  {
  }

  /** A path the update body gives replaces the stored value; an absent one leaves it. */
  function Over<T>(given: Option<T>, stored: T): T {
    if given.Some? then given.value else stored
  }

  /** The same for a path that may itself be unset in the record. */
  function OverOpt<T>(given: Option<T>, stored: Option<T>): Option<T> {
    if given.Some? then given else stored
  }

  /** The body gives no path besides, possibly, `email` and `password`. */
  predicate OnlyCredentials(patch: UserPatch) {
    patch.name.None? && patch.mobile.None? && patch.age.None? && patch.role.None? &&
    patch.registrationDate.None? &&
    patch.address.None? && patch.city.None? && patch.state.None? && patch.zipCode.None? &&
    patch.isVerified.None? && patch.emailVerificationToken.None? &&
    patch.emailVerificationTokenExpires.None? && patch.passwordResetToken.None? &&
    patch.passwordResetTokenExpires.None?
  }

  /**
   * `findByIdAndUpdate` with the body minus `email` and `password`: every other path the body
   * gives is written, `isVerified`, `role` and the token fields included.
   */
  function ApplyPatch(u: User, patch: UserPatch): (r: User)
    ensures r.email == u.email && r.password == u.password
    ensures patch.name.Some? ==> r.name == patch.name
    ensures patch.mobile.Some? ==> r.mobile == patch.mobile
    ensures patch.age.Some? ==> r.age == patch.age
    ensures patch.role.Some? ==> r.role == patch.role.value
    ensures patch.registrationDate.Some? ==> r.registrationDate == patch.registrationDate.value
    ensures patch.address.Some? ==> r.address == patch.address
    ensures patch.city.Some? ==> r.city == patch.city
    ensures patch.state.Some? ==> r.state == patch.state
    ensures patch.zipCode.Some? ==> r.zipCode == patch.zipCode
    ensures patch.isVerified.Some? ==> r.isVerified == patch.isVerified.value
    ensures patch.emailVerificationToken.Some? ==> r.emailVerificationToken == patch.emailVerificationToken
    ensures patch.emailVerificationTokenExpires.Some? ==>
      r.emailVerificationTokenExpires == patch.emailVerificationTokenExpires
    ensures patch.passwordResetToken.Some? ==> r.passwordResetToken == patch.passwordResetToken
    ensures patch.passwordResetTokenExpires.Some? ==> r.passwordResetTokenExpires == patch.passwordResetTokenExpires
    ensures OnlyCredentials(patch) ==> r == u
  {
    u.(name := OverOpt(patch.name, u.name),
       mobile := OverOpt(patch.mobile, u.mobile),
       age := OverOpt(patch.age, u.age),
       role := Over(patch.role, u.role),
       registrationDate := Over(patch.registrationDate, u.registrationDate),
       address := OverOpt(patch.address, u.address),
       city := OverOpt(patch.city, u.city),
       state := OverOpt(patch.state, u.state),
       zipCode := OverOpt(patch.zipCode, u.zipCode),
       isVerified := Over(patch.isVerified, u.isVerified),
       emailVerificationToken := OverOpt(patch.emailVerificationToken, u.emailVerificationToken),
       emailVerificationTokenExpires := OverOpt(patch.emailVerificationTokenExpires, u.emailVerificationTokenExpires),
       passwordResetToken := OverOpt(patch.passwordResetToken, u.passwordResetToken),
       passwordResetTokenExpires := OverOpt(patch.passwordResetTokenExpires, u.passwordResetTokenExpires))
  }

  /** A path the body omits keeps its stored value. */
  lemma OmittedPathsKept(u: User, patch: UserPatch)
    ensures var r := ApplyPatch(u, patch);
      (patch.name.None? ==> r.name == u.name) && (patch.mobile.None? ==> r.mobile == u.mobile) &&
      (patch.age.None? ==> r.age == u.age) && (patch.role.None? ==> r.role == u.role) &&
      (patch.registrationDate.None? ==> r.registrationDate == u.registrationDate) &&
      (patch.address.None? ==> r.address == u.address) && (patch.city.None? ==> r.city == u.city) &&
      (patch.state.None? ==> r.state == u.state) && (patch.zipCode.None? ==> r.zipCode == u.zipCode) &&
      (patch.isVerified.None? ==> r.isVerified == u.isVerified) &&
      (patch.emailVerificationToken.None? ==> r.emailVerificationToken == u.emailVerificationToken) &&
      (patch.emailVerificationTokenExpires.None? ==>
         r.emailVerificationTokenExpires == u.emailVerificationTokenExpires) &&
      (patch.passwordResetToken.None? ==> r.passwordResetToken == u.passwordResetToken) &&
      (patch.passwordResetTokenExpires.None? ==> r.passwordResetTokenExpires == u.passwordResetTokenExpires)
  {
  }

  /** Sending the same update twice stores what sending it once does. */
  lemma ApplyPatchIdempotent(u: User, patch: UserPatch)
    ensures ApplyPatch(ApplyPatch(u, patch), patch) == ApplyPatch(u, patch)
  {
  }

  /** The persisted user collection, with the mails handed to the relay so far. */
  class UserStore {
    var users: map<UserId, User>
    var nextId: UserId
    var outbox: seq<Mail>

    /**
     * Ids are below the next id to hand out, e-mail strings are unique, and every record holds a
     * password hash (no endpoint can remove one).
     */
    ghost predicate Valid()
      reads this
    {
      (forall id :: id in users ==> id < nextId) &&
      EmailsUnique(users) &&
      (forall id :: id in users ==> users[id].password.Some?)
    }

    constructor ()
      ensures Valid() && users == map[] && outbox == []
    {
      users := map[];
      nextId := 0;
      outbox := [];
    }

    /** `User.findOne(query)`: some record satisfying the query, or none if no record does. */
    method FindOne(query: User -> bool) returns (found: Option<UserId>)
      ensures found.Some? ==> found.value in users && query(users[found.value])
      ensures found.None? ==> forall id :: id in users ==> !query(users[id])
    {
      var unseen := users.Keys;
      while unseen != {}
        invariant unseen <= users.Keys
        invariant forall id :: id in users && id !in unseen ==> !query(users[id])
        decreases unseen
      {
        var id :| id in unseen;
        if query(users[id]) {
          return Some(id);
        }
        unseen := unseen - {id};
      }
      return None;
    }

    /**
     * `createUser`: on valid input with an unused e-mail, stores an unverified record holding the
     * hash and a fresh day-long token, then attempts the verification mail; the reply is 201 either
     * way and only its message says whether the mail went out.
     */
    method CreateUser(body: RegisterBody, now: nat, random: seq<Byte>, hasher: string -> string, mailOk: bool)
      returns (reply: Reply)
      requires Valid()
      modifies this
      ensures Valid()
      ensures RegistrationError(body).Some? ==>
        reply == Reply(400, RegistrationError(body).value, NoBody) &&
        users == old(users) && outbox == old(outbox)
      ensures RegistrationError(body).None? && EmailTaken(old(users), body.email.value) ==>
        reply == Reply(400, USER_EXISTS, NoBody) && users == old(users) && outbox == old(outbox)
      ensures RegistrationError(body).None? && !EmailTaken(old(users), body.email.value) ==>
        var id := old(nextId);
        var u := NewRecord(body, now, random, hasher);
        id !in old(users) && users == old(users)[id := u] &&
        outbox == old(outbox) + [Mail(body.email.value, Hex(random), Some(FullName(body)))] &&
        reply == Reply(201, if mailOk then REGISTERED else REGISTERED_MAIL_FAILED, UserBody(id, WithoutPassword(u)))
    {
      var err := RegistrationError(body);
      if err.Some? {
        return Reply(400, err.value, NoBody);
      }
      var email := body.email.value;
      var existing := FindOne((u: User) => u.email == email);
      if existing.Some? {
        return Reply(400, USER_EXISTS, NoBody);
      }
      var u := NewRecord(body, now, random, hasher);
      var id := nextId;
      users := users[id := u];
      nextId := nextId + 1;
      outbox := outbox + [Mail(email, Hex(random), Some(FullName(body)))];
      if mailOk {
        reply := Reply(201, REGISTERED, UserBody(id, WithoutPassword(u)));
      } else {
        reply := Reply(201, REGISTERED_MAIL_FAILED, UserBody(id, WithoutPassword(u)));
      }
    }

    /**
     * `verifyEmail`: redeems the record whose token equals the given one and is still unexpired,
     * marking it verified and clearing the token pair; anything else is a 400 that changes nothing.
     */
    method VerifyEmail(token: Option<string>, now: nat) returns (reply: Reply)
      requires Valid()
      modifies this
      ensures Valid() && outbox == old(outbox) && nextId == old(nextId)
      ensures !Truthy(token) ==> reply == Reply(400, TOKEN_REQUIRED, NoBody) && users == old(users)
      ensures Truthy(token) && !Redeemable(old(users), token.value, now) ==>
        reply == Reply(400, TOKEN_INVALID, NoBody) && users == old(users)
      ensures Truthy(token) && Redeemable(old(users), token.value, now) ==>
        reply == Reply(200, VERIFIED, NoBody) &&
        exists id :: id in old(users) && TokenMatches(old(users)[id], token.value, now) &&
          users == old(users)[id := Redeem(old(users)[id])]
    {
      if !Truthy(token) {
        return Reply(400, TOKEN_REQUIRED, NoBody);
      }
      var t := token.value;
      var found := FindOne((u: User) => TokenMatches(u, t, now));
      if found.None? {
        return Reply(400, TOKEN_INVALID, NoBody);
      }
      var id := found.value;
      users := users[id := Redeem(users[id])];
      reply := Reply(200, VERIFIED, NoBody);
    }

    /**
     * `resendVerificationEmail`: for a known, still unverified address, overwrites the token pair,
     * saves, then attempts the mail; a failed mail answers 500 but keeps the new token.
     */
    method ResendVerificationEmail(email: Option<string>, now: nat, random: seq<Byte>, mailOk: bool)
      returns (reply: Reply)
      requires Valid()
      modifies this
      ensures Valid() && nextId == old(nextId)
      ensures !Truthy(email) ==>
        reply == Reply(400, EMAIL_REQUIRED, NoBody) && users == old(users) && outbox == old(outbox)
      ensures Truthy(email) && !EmailTaken(old(users), email.value) ==>
        reply == Reply(404, USER_NOT_FOUND, NoBody) && users == old(users) && outbox == old(outbox)
      ensures Truthy(email) ==> forall id :: id in old(users) && old(users)[id].email == email.value ==>
        if old(users)[id].isVerified then
          reply == Reply(400, ALREADY_VERIFIED, NoBody) && users == old(users) && outbox == old(outbox)
        else
          users == old(users)[id := Reissue(old(users)[id], Hex(random), now)] &&
          outbox == old(outbox) + [Mail(email.value, Hex(random), old(users)[id].name)] &&
          reply == (if mailOk then Reply(200, MAIL_SENT, NoBody) else Reply(500, MAIL_FAILED, NoBody))
    {
      if !Truthy(email) {
        return Reply(400, EMAIL_REQUIRED, NoBody);
      }
      var e := email.value;
      var found := FindOne((u: User) => u.email == e);
      if found.None? {
        return Reply(404, USER_NOT_FOUND, NoBody);
      }
      var id := found.value;
      var u := users[id];
      if u.isVerified {
        return Reply(400, ALREADY_VERIFIED, NoBody);
      }
      var token := Hex(random);
      users := users[id := Reissue(u, token, now)];
      outbox := outbox + [Mail(u.email, token, u.name)];
      if mailOk {
        reply := Reply(200, MAIL_SENT, NoBody);
      } else {
        reply := Reply(500, MAIL_FAILED, NoBody);
      }
    }

    /**
     * `loginUser`: a verified user whose password matches the stored hash gets a token signed over
     * exactly {id, name, email, role} for 24 hours and the record without its password. An unknown
     * address and a wrong password get the same 401; an unverified user gets the "verify" 401
     * whatever the password.
     */
    method LoginUser(email: Option<string>, password: Option<string>,
                     passwordMatches: (string, string) -> bool, sign: SessionPayload -> string)
      returns (reply: Reply)
      requires Valid()
      ensures !Truthy(email) || !Truthy(password) ==> reply == Reply(400, FILL_ALL_FIELDS, NoBody)
      ensures Truthy(email) && Truthy(password) && !EmailTaken(users, email.value) ==>
        reply == Reply(401, INVALID_CREDENTIALS, NoBody)
      ensures Truthy(email) && Truthy(password) ==> forall id :: id in users && users[id].email == email.value ==>
        (!users[id].isVerified ==> reply == Reply(401, VERIFY_FIRST, NoBody)) &&
        (users[id].isVerified && !passwordMatches(password.value, users[id].password.value) ==>
           reply == Reply(401, INVALID_CREDENTIALS, NoBody)) &&
        (users[id].isVerified && passwordMatches(password.value, users[id].password.value) ==>
           reply == Reply(200, SUCCESS, SessionBody(id, WithoutPassword(users[id]),
                                                    sign(SessionPayload(ClaimsOf(id, users[id]), SESSION_TTL_S)))))
      ensures reply.status == 200 <==> reply.body.SessionBody?
    {
      if !Truthy(email) || !Truthy(password) {
        return Reply(400, FILL_ALL_FIELDS, NoBody);
      }
      var e := email.value;
      var found := FindOne((u: User) => u.email == e);
      if found.None? {
        return Reply(401, INVALID_CREDENTIALS, NoBody);
      }
      var id := found.value;
      var u := users[id];
      if !u.isVerified {
        return Reply(401, VERIFY_FIRST, NoBody);
      }
      if passwordMatches(password.value, u.password.value) {
        var token := sign(SessionPayload(ClaimsOf(id, u), SESSION_TTL_S));
        reply := Reply(200, SUCCESS, SessionBody(id, WithoutPassword(u), token));
      } else {
        reply := Reply(401, INVALID_CREDENTIALS, NoBody);
      }
    }

    /** `getUser`: the caller's own record without its password, or 404. */
    method GetUser(claims: Claims) returns (reply: Reply)
      ensures claims.id !in users ==> reply == Reply(404, USER_NOT_FOUND, NoBody)
      ensures claims.id in users ==>
        reply == Reply(200, SUCCESS, UserBody(claims.id, WithoutPassword(users[claims.id])))
      ensures reply.body.UserBody? ==> reply.body.user.password.None?
    {
      if claims.id !in users {
        return Reply(404, USER_NOT_FOUND, NoBody);
      }
      reply := Reply(200, SUCCESS, UserBody(claims.id, WithoutPassword(users[claims.id])));
    }

    /** `getUsers`: every record, none with its password. */
    method GetUsers() returns (reply: Reply)
      ensures reply.status == 200 && reply.body.UsersBody?
      ensures reply.body.users.Keys == users.Keys
      ensures forall id :: id in reply.body.users ==>
        reply.body.users[id].password.None? && reply.body.users[id] == users[id].(password := None)
    {
      reply := Reply(200, SUCCESS, UsersBody(map id | id in users :: WithoutPassword(users[id])));
    }

    /**
     * `updateUser`: writes every path of the body except `email` and `password` into the caller's
     * record; 404 if the record is gone.
     */
    method UpdateUser(claims: Claims, patch: UserPatch) returns (reply: Reply)
      requires Valid()
      modifies this
      ensures Valid() && nextId == old(nextId) && outbox == old(outbox)
      ensures claims.id !in old(users) ==> reply == Reply(404, USER_NOT_FOUND, NoBody) && users == old(users)
      ensures claims.id in old(users) ==>
        users == old(users)[claims.id := ApplyPatch(old(users)[claims.id], patch)] &&
        reply == Reply(200, SUCCESS, UserBody(claims.id, WithoutPassword(users[claims.id])))
    {
      if claims.id !in users {
        return Reply(404, USER_NOT_FOUND, NoBody);
      }
      var updated := ApplyPatch(users[claims.id], patch);
      users := users[claims.id := updated];
      reply := Reply(200, SUCCESS, UserBody(claims.id, WithoutPassword(updated)));
    }

    /** `deleteUser`: removes the caller's record and answers with it, without its password; 404 if gone. */
    method DeleteUser(claims: Claims) returns (reply: Reply)
      requires Valid()
      modifies this
      ensures Valid() && nextId == old(nextId) && outbox == old(outbox)
      ensures claims.id !in old(users) ==> reply == Reply(404, USER_NOT_FOUND, NoBody) && users == old(users)
      ensures claims.id in old(users) ==>
        users == old(users) - {claims.id} &&
        reply == Reply(200, DELETED, UserBody(claims.id, WithoutPassword(old(users)[claims.id])))
    {
      if claims.id !in users {
        return Reply(404, USER_NOT_FOUND, NoBody);
      }
      var u := users[claims.id];
      users := users - {claims.id};
      reply := Reply(200, DELETED, UserBody(claims.id, WithoutPassword(u)));
    }
  }
}
