/**
  Sequences of auth handler calls, as a client of `AuthController` would
  make them. Each is proved from the handlers' contracts alone.
 */
module AuthFlows {
  import opened Responses
  import opened Ids
  import opened Credentials
  import opened AuthStore
  import opened Auth

  /** Register, confirm with the emailed code, then log in with the same password. */
  method RegisterConfirmLogin(a: AuthController, email: Email, password: Password, name: Name,
                              code: Code, loginCode: Code)
    returns (registered: Response<string>, confirmed: Response<string>, session: Response<Jwt>)
    requires a.Valid()
    requires !EmailTaken(a.users, email)
    requires CountCode(a.tokens, code) == 0
    modifies a
    ensures a.Valid()
    ensures registered == Ok(AccountCreated) && confirmed == Ok(AccountConfirmed)
    ensures old(a.nextId) in a.users && a.users[old(a.nextId)].confirmed
    ensures session == Ok(GenerateJwt(old(a.nextId)))
    ensures JwtSubject(session.body) == old(a.nextId)
    ensures FindToken(a.tokens, code).None?
  {
    var id := a.nextId;
    ghost var before := a.tokens;
    registered := a.CreateAccount(email, password, name, false, code);
    assert a.tokens == before + [Token(code, id)];
    assert id in a.users && a.users[id].email == email;
    FoundIffCounted(before, code);
    FindTokenAppend(before, Token(code, id), code);
    CountCodeAppend(before, [Token(code, id)], code);
    assert FindToken(a.tokens, code) == Some(|before|);
    assert CountCode(a.tokens, code) == 1;
    ConsumedCodeGone(a.tokens, code);
    confirmed := a.ConfirmAccount(code);
    assert id in a.users && a.users[id].email == email && a.users[id].confirmed;
    session := a.Login(email, password, loginCode);
    JwtRoundTrip(id, id);
  }

  /** A registration body that sets `confirmed` yields an account that logs in without ever using a code. */
  method RegisterConfirmedSkipsToken(a: AuthController, email: Email, password: Password, name: Name,
                                     code: Code, loginCode: Code)
    returns (registered: Response<string>, session: Response<Jwt>)
    requires a.Valid()
    requires !EmailTaken(a.users, email)
    modifies a
    ensures a.Valid()
    ensures registered == Ok(AccountCreated)
    ensures session == Ok(GenerateJwt(old(a.nextId)))
    ensures a.tokens == old(a.tokens) + [Token(code, old(a.nextId))]
  {
    var id := a.nextId;
    registered := a.CreateAccount(email, password, name, true, code);
    assert a.users[id].email == email;
    session := a.Login(email, password, loginCode);
  }

  /** A consumed code cannot confirm twice: the second submission is a 404. */
  method ConfirmTwice(a: AuthController, code: Code)
    returns (first: Response<string>, second: Response<string>)
    requires a.Valid()
    requires CountCode(a.tokens, code) == 1
    requires forall j :: 0 <= j < |a.tokens| && a.tokens[j].code == code ==> a.tokens[j].owner in a.users
    modifies a
    ensures a.Valid()
    ensures first == Ok(AccountConfirmed)
    ensures second == Err(NotFound, TokenInvalid)
    ensures forall j :: 0 <= j < |old(a.tokens)| && old(a.tokens)[j].code == code ==>
      var owner := old(a.tokens)[j].owner;
      owner in a.users && a.users[owner].confirmed
  {
    ConsumedCodeGone(a.tokens, code);
    ghost var i := FindToken(a.tokens, code).value;
    ghost var owner := a.tokens[i].owner;
    first := a.ConfirmAccount(code);
    second := a.ConfirmAccount(code);
    forall j | 0 <= j < |old(a.tokens)| && old(a.tokens)[j].code == code
      ensures old(a.tokens)[j].owner == owner
    {
      SoleCodeFound(old(a.tokens), code, j);
    }
  }

  /** Reset a confirmed user's password with a token, then log in with the new one. */
  method ResetThenLogin(a: AuthController, code: Code, password: Password, email: Email,
                        loginCode: Code)
    returns (reset: Response<string>, session: Response<Jwt>)
    requires a.Valid()
    requires FindToken(a.tokens, code).Some?
    requires a.tokens[FindToken(a.tokens, code).value].owner in a.users
    requires a.users[a.tokens[FindToken(a.tokens, code).value].owner].email == email
    requires a.users[a.tokens[FindToken(a.tokens, code).value].owner].confirmed
    modifies a
    ensures a.Valid()
    ensures var owner := old(a.tokens)[FindToken(old(a.tokens), code).value].owner;
      && reset == Ok(PasswordChanged)
      && session == Ok(GenerateJwt(owner))
      && owner in a.users
      && forall p :: Verify(p, a.users[owner].password) <==> p == password
  {
    ghost var owner := a.tokens[FindToken(a.tokens, code).value].owner;
    reset := a.UpdatePasswordWithToken(code, password);
    assert a.users[owner].email == email;
    session := a.Login(email, password, loginCode);
    forall p ensures Verify(p, a.users[owner].password) <==> p == password {
      HashThenVerify(password, p);
    }
  }

  /** `validateToken` does not consume: it succeeds twice, and the code still resets the password after. */
  method ValidateTwiceThenReset(a: AuthController, code: Code, password: Password)
    returns (v1: Response<string>, v2: Response<string>, reset: Response<string>)
    requires a.Valid()
    requires exists j :: 0 <= j < |a.tokens| && a.tokens[j].code == code
    requires a.tokens[FindToken(a.tokens, code).value].owner in a.users
    modifies a
    ensures a.Valid()
    ensures v1 == Ok(TokenValid) && v2 == Ok(TokenValid)
    ensures reset == Ok(PasswordChanged)
  {
    v1 := a.ValidateToken(code);
    v2 := a.ValidateToken(code);
    reset := a.UpdatePasswordWithToken(code, password);
  }

  /** Tokens carry no purpose: the code a password reset emails also confirms an unconfirmed account. */
  method ResetCodeConfirms(a: AuthController, email: Email, code: Code)
    returns (requested: Response<string>, confirmed: Response<string>)
    requires a.Valid()
    requires EmailTaken(a.users, email)
    requires CountCode(a.tokens, code) == 0
    modifies a
    ensures a.Valid()
    ensures requested == Ok(CheckYourEmail) && confirmed == Ok(AccountConfirmed)
    ensures forall id :: id in old(a.users) && old(a.users)[id].email == email ==>
      && a.users == old(a.users)[id := old(a.users)[id].(confirmed := true)]
      && a.outbox == old(a.outbox) + [Mail(PasswordReset, email, old(a.users)[id].name, code)]
      && a.tokens == old(a.tokens)
  {
    ghost var id := FindUserByEmail(a.users, email).value;
    requested := a.ForgotPassword(email, code);
    FoundIffCounted(old(a.tokens), code);
    FindTokenAppend(old(a.tokens), Token(code, id), code);
    confirmed := a.ConfirmAccount(code);
    assert RemoveAt(old(a.tokens) + [Token(code, id)], |old(a.tokens)|) == old(a.tokens);
  }
}
