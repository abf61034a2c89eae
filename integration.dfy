/** How the client pages and the server's user endpoints fit together. */
module Integration {
  import opened Wrappers
  import opened Js
  import UserModel
  import UserController
  import TokenGate
  import Register

  /**
   * The registration body as `createUser` reads it when the page posts its cleaned payload: the
   * page sends `name` but no `firstname` or `lastname`, so those arrive absent.
   */
  function ServerView(p: Register.Payload): (body: UserController.RegisterBody)
    ensures body.firstname.None? && body.lastname.None?
    ensures body.email == Some(p.email) && body.password == Some(p.password) && body.role == Some(p.role)
  {
    UserController.RegisterBody(None, None, Some(p.email), Some(p.password), Some(p.role))
  }

  /**
   * Whatever the user types, the registration the page submits is refused with "Please fill all
   * fields": no form, not even one passing every step-1 check, reaches the store.
   */
  lemma ClientRegistrationRejected(f: Register.FormData)
    ensures UserController.RegistrationError(ServerView(Register.CleanPayload(f))) ==
      Some(UserController.FILL_ALL_FIELDS)
  {
  }

  /**
   * The session token a successful login hands out, sent back as `Bearer <token>`, admits the
   * request with exactly the claims it was signed over, provided `verify` undoes `sign` and the
   * signed token is a single non-empty word (as a JWT is).
   */
  lemma LoginTokenAdmitted(id: UserModel.UserId, u: UserModel.User,
                           sign: UserController.SessionPayload -> string,
                           verify: string -> Option<UserModel.Claims>, capitalized: Option<string>)
    requires forall p :: verify(sign(p)) == Some(p.user)
    requires var t := sign(UserController.SessionPayload(UserModel.ClaimsOf(id, u), UserController.SESSION_TTL_S));
      t != "" && ' ' !in t
    ensures var t := sign(UserController.SessionPayload(UserModel.ClaimsOf(id, u), UserController.SESSION_TTL_S));
      TokenGate.Decide(TokenGate.Headers(Some(TokenGate.BEARER_PREFIX + t), capitalized), verify) ==
        TokenGate.Admitted(UserModel.ClaimsOf(id, u))
  {
    var payload := UserController.SessionPayload(UserModel.ClaimsOf(id, u), UserController.SESSION_TTL_S);
    var t := sign(payload);
    var h := TokenGate.Headers(Some(TokenGate.BEARER_PREFIX + t), capitalized);
    assert verify(t) == Some(payload.user);
    TokenGate.AdmitsVerifiedBearer(h, t, verify, payload.user);
  }
}
