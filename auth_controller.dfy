/**
  The account and token lifecycle handlers of `AuthController`. The object
  holds the User collection, the Token collection and the next user id the
  store will hand out; `outbox` records every email a handler triggers.
  Request fields become parameters, `generateToken()` is the `code`
  parameter, and the authenticated user (`req.user`) is the `actor` id.
 */
module Auth {
  import opened Responses
  import opened Ids
  import opened Credentials
  import opened AuthStore

  const UserExists := "El usuario ya está registrado"
  const AccountCreated := "Cuenta creada, te hemos enviado un email para confirmarla"
  const TokenInvalid := "Token no Válido"
  const AccountConfirmed := "Cuenta Confirmada Correctamente"
  const UserNotFound := "Usuario no encontrado"
  const NotConfirmed := "La cuenta no ha sido confirmada, hemos enviado un e-mail de confirmación"
  const WrongPassword := "Password Incorrecto"
  const NotRegistered := "El usuario no está registrado"
  const AlreadyConfirmed := "El usuario ya está confirmado"
  const NewTokenSent := "Se envió un nuevo Token a tu e-mail"
  const CheckYourEmail := "Revisa tu email para continuar con el proceso de modificación del Password"
  const TokenValid := "Token válido. Define tu nuevo Password"
  const PasswordChanged := "Se cambió el Password correctamente"
  const EmailInUse := "Ese Email ya está registrado"
  const ProfileUpdated := "Perfil actualizado correctamente"
  const CurrentPasswordWrong := "El password actual es incorrecto"
  const PasswordUpdated := "El Password se modificó correctamente"
  const PasswordIsWrong := "El password es incorrecto"
  const PasswordIsRight := "Password Correcto"
  const Unexpected := "Hubo un error"

  class AuthController {
    var users: map<UserId, User>
    var tokens: seq<Token>
    var nextId: UserId
    ghost var outbox: seq<Mail>

    /** Emails are unique, and every stored id was handed out before `nextId`. */
    ghost predicate Valid()
      reads this
    {
      UniqueEmails(users) &&
      (forall id :: id in users ==> id < nextId) &&
      (forall i :: 0 <= i < |tokens| ==> tokens[i].owner < nextId)
    }

    constructor ()
      ensures Valid()
      ensures users == map[] && tokens == [] && outbox == []
    {
      users := map[];
      tokens := [];
      nextId := 0;
      outbox := [];
    }

    /** `createAccount`. `new User(req.body)` copies every schema field the body carries:
        `confirmed` is the body's flag, false when the body leaves it out. */
    method CreateAccount(email: Email, password: Password, name: Name, confirmed: bool, code: Code)
      returns (r: Response<string>)
      requires Valid()
      modifies this
      ensures Valid()
      ensures EmailTaken(old(users), email) ==>
        r == Err(Conflict, UserExists) && unchanged(this)
      ensures !EmailTaken(old(users), email) ==>
        var id := old(nextId);
        && r == Ok(AccountCreated)
        && id !in old(users)
        && (forall j :: 0 <= j < |old(tokens)| ==> old(tokens)[j].owner != id)
        && users == old(users)[id := User(email, name, Hash(password), confirmed)]
        && tokens == old(tokens) + [Token(code, id)]
        && outbox == old(outbox) + [Mail(Confirmation, email, name, code)]
        && nextId > id
    {
      if FindUserByEmail(users, email).Some? {
        return Err(Conflict, UserExists);
      }
      var id := nextId;
      nextId := nextId + 1;
      var user := User(email, name, Hash(password), confirmed);
      var token := Token(code, id);
      outbox := outbox + [Mail(Confirmation, user.email, user.name, token.code)];
      users := users[id := user];
      tokens := tokens + [token];
      r := Ok(AccountCreated);
    }

    /** `confirmAccount` */
    method ConfirmAccount(code: Code) returns (r: Response<string>)
      requires Valid()
      modifies this
      ensures Valid()
      ensures FindToken(old(tokens), code).None? ==>
        r == Err(NotFound, TokenInvalid) && unchanged(this)
      ensures FindToken(old(tokens), code).Some? ==>
        var i := FindToken(old(tokens), code).value;
        var owner := old(tokens)[i].owner;
        && (owner !in old(users) ==> r == Err(ServerError, Unexpected) && unchanged(this))
        && (owner in old(users) ==>
              && r == Ok(AccountConfirmed)
              && users == old(users)[owner := old(users)[owner].(confirmed := true)]
              && tokens == RemoveAt(old(tokens), i)
              && outbox == old(outbox) && nextId == old(nextId))
    {
      var found := FindToken(tokens, code);
      if found.None? {
        return Err(NotFound, TokenInvalid);
      }
      var i := found.value;
      var owner := tokens[i].owner;
      if owner !in users {
        // `User.findById` yields null and the field assignment throws
        return Err(ServerError, Unexpected);
      }
      users := users[owner := users[owner].(confirmed := true)];
      tokens := RemoveAt(tokens, i);
      r := Ok(AccountConfirmed);
    }

    /** `login` */
    method Login(email: Email, password: Password, code: Code) returns (r: Response<Jwt>)
      requires Valid()
      modifies this
      ensures Valid()
      ensures !EmailTaken(old(users), email) ==>
        r == Err(NotFound, UserNotFound) && unchanged(this)
      ensures forall id :: id in old(users) && old(users)[id].email == email ==>
        var u := old(users)[id];
        && (!u.confirmed ==>
              && r == Err(Unauthorized, NotConfirmed)
              && users == old(users) && nextId == old(nextId)
              && tokens == old(tokens) + [Token(code, id)]
              && outbox == old(outbox) + [Mail(Confirmation, u.email, u.name, code)])
        && (u.confirmed && !Verify(password, u.password) ==>
              r == Err(Unauthorized, WrongPassword) && unchanged(this))
        && (u.confirmed && Verify(password, u.password) ==>
              r == Ok(GenerateJwt(id)) && unchanged(this))
    {
      var found := FindUserByEmail(users, email);
      if found.None? {
        return Err(NotFound, UserNotFound);
      }
      var id := found.value;
      var user := users[id];
      if !user.confirmed {
        var token := Token(code, id);
        tokens := tokens + [token];
        outbox := outbox + [Mail(Confirmation, user.email, user.name, token.code)];
        return Err(Unauthorized, NotConfirmed);
      }
      if !Verify(password, user.password) {
        return Err(Unauthorized, WrongPassword);
      }
      r := Ok(GenerateJwt(id));
    }

    /** `requestConfirmatioCode` */
    method RequestConfirmationCode(email: Email, code: Code) returns (r: Response<string>)
      requires Valid()
      modifies this
      ensures Valid()
      ensures !EmailTaken(old(users), email) ==>
        r == Err(NotFound, NotRegistered) && unchanged(this)
      ensures forall id :: id in old(users) && old(users)[id].email == email ==>
        var u := old(users)[id];
        && (u.confirmed ==> r == Err(Forbidden, AlreadyConfirmed) && unchanged(this))
        && (!u.confirmed ==>
              && r == Ok(NewTokenSent)
              && users == old(users) && nextId == old(nextId)
              && tokens == old(tokens) + [Token(code, id)]
              && outbox == old(outbox) + [Mail(Confirmation, u.email, u.name, code)])
    {
      var found := FindUserByEmail(users, email);
      if found.None? {
        return Err(NotFound, NotRegistered);
      }
      var id := found.value;
      var user := users[id];
      if user.confirmed {
        return Err(Forbidden, AlreadyConfirmed);
      }
      var token := Token(code, id);
      outbox := outbox + [Mail(Confirmation, user.email, user.name, token.code)];
      // `user.save()` writes the record back unchanged
      users := users[id := user];
      tokens := tokens + [token];
      r := Ok(NewTokenSent);
    }

    /** `forgotPassword`: does not look at `confirmed`. */
    method ForgotPassword(email: Email, code: Code) returns (r: Response<string>)
      requires Valid()
      modifies this
      ensures Valid()
      ensures !EmailTaken(old(users), email) ==>
        r == Err(NotFound, NotRegistered) && unchanged(this)
      ensures forall id :: id in old(users) && old(users)[id].email == email ==>
        var u := old(users)[id];
        && r == Ok(CheckYourEmail)
        && users == old(users) && nextId == old(nextId)
        && tokens == old(tokens) + [Token(code, id)]
        && outbox == old(outbox) + [Mail(PasswordReset, u.email, u.name, code)]
    {
      var found := FindUserByEmail(users, email);
      if found.None? {
        return Err(NotFound, NotRegistered);
      }
      var id := found.value;
      var user := users[id];
      var token := Token(code, id);
      tokens := tokens + [token];
      outbox := outbox + [Mail(PasswordReset, user.email, user.name, token.code)];
      r := Ok(CheckYourEmail);
    }

    /** `validateToken`: an existence check that consumes nothing. */
    function ValidateToken(code: Code): (r: Response<string>)
      reads this
      ensures r.Ok? <==> exists j :: 0 <= j < |tokens| && tokens[j].code == code
      ensures r.Ok? ==> r.body == TokenValid
      ensures r.Err? ==> r == Err(NotFound, TokenInvalid)
    {
      if FindToken(tokens, code).None? then Err(NotFound, TokenInvalid) else Ok(TokenValid)
    }

    /** `updatePasswordWithToken` */
    method UpdatePasswordWithToken(code: Code, password: Password) returns (r: Response<string>)
      requires Valid()
      modifies this
      ensures Valid()
      ensures FindToken(old(tokens), code).None? ==>
        r == Err(NotFound, TokenInvalid) && unchanged(this)
      ensures FindToken(old(tokens), code).Some? ==>
        var i := FindToken(old(tokens), code).value;
        var owner := old(tokens)[i].owner;
        && (owner !in old(users) ==> r == Err(ServerError, Unexpected) && unchanged(this))
        && (owner in old(users) ==>
              && r == Ok(PasswordChanged)
              && users == old(users)[owner := old(users)[owner].(password := Hash(password))]
              && tokens == RemoveAt(old(tokens), i)
              && outbox == old(outbox) && nextId == old(nextId))
    {
      var found := FindToken(tokens, code);
      if found.None? {
        return Err(NotFound, TokenInvalid);
      }
      var i := found.value;
      var owner := tokens[i].owner;
      if owner !in users {
        // `User.findById` yields null and the field assignment throws
        return Err(ServerError, Unexpected);
      }
      users := users[owner := users[owner].(password := Hash(password))];
      tokens := RemoveAt(tokens, i);
      r := Ok(PasswordChanged);
    }

    /** `updateProfile`: a conflict only when another user already has `email`. */
    method UpdateProfile(actor: UserId, name: Name, email: Email) returns (r: Response<string>)
      requires Valid()
      requires actor in users
      modifies this
      ensures Valid()
      ensures (exists id :: id in old(users) && id != actor && old(users)[id].email == email) ==>
        r == Err(Conflict, EmailInUse) && unchanged(this)
      ensures !(exists id :: id in old(users) && id != actor && old(users)[id].email == email) ==>
        && r == Ok(ProfileUpdated)
        && users == old(users)[actor := old(users)[actor].(name := name, email := email)]
        && tokens == old(tokens) && outbox == old(outbox) && nextId == old(nextId)
    {
      var found := FindUserByEmail(users, email);
      if found.Some? && found.value != actor {
        return Err(Conflict, EmailInUse);
      }
      users := users[actor := users[actor].(name := name, email := email)];
      r := Ok(ProfileUpdated);
    }

    /** `updateCurrentUserPassword`: the current password is checked against the stored record. */
    method UpdateCurrentUserPassword(actor: UserId, current: Password, password: Password)
      returns (r: Response<string>)
      requires Valid()
      requires actor in users
      modifies this
      ensures Valid()
      ensures !Verify(current, old(users)[actor].password) ==>
        r == Err(Unauthorized, CurrentPasswordWrong) && unchanged(this)
      ensures Verify(current, old(users)[actor].password) ==>
        && r == Ok(PasswordUpdated)
        && users == old(users)[actor := old(users)[actor].(password := Hash(password))]
        && tokens == old(tokens) && outbox == old(outbox) && nextId == old(nextId)
    {
      var user := users[actor];
      if !Verify(current, user.password) {
        return Err(Unauthorized, CurrentPasswordWrong);
      }
      users := users[actor := user.(password := Hash(password))];
      r := Ok(PasswordUpdated);
    }

    /** `checkPassword`: a re-authentication check that changes nothing. */
    function CheckPassword(actor: UserId, password: Password): (r: Response<string>)
      requires actor in users
      reads this
      ensures r.Ok? <==> Hash(password) == users[actor].password
      ensures r.Ok? ==> r.body == PasswordIsRight
      ensures r.Err? ==> r == Err(Unauthorized, PasswordIsWrong)
    {
      if Verify(password, users[actor].password) then Ok(PasswordIsRight)
      else Err(Unauthorized, PasswordIsWrong)
    }
  }
}
