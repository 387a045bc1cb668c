/** The account controller: sign-up, login, the self-service profile update, the password
    change and the self-deactivation. */
module AuthController {
  import opened Base
  import opened UserModel
  import opened Store
  import opened FieldFilter

  // ---------------------------------------------------------------------------------
  // registro

  /** The body of `POST /registro`. */
  datatype RegistroBody = RegistroBody(nombre: string, apellido: string, email: string, password: string,
                               walletAddress: string, telefono: Option<string>,
                               numeroLegislador: Nullable<string>, partido: Option<string>,
                               distrito: Option<string>)

  /** The route validators of `POST /registro`; `emailOk` is the verdict of the e-mail
      validator library. */
  predicate RegistroInputOk(b: RegistroBody, emailOk: bool)
  {
    && 2 <= |b.nombre| <= 100
    && 2 <= |b.apellido| <= 100
    && emailOk
    && |b.password| >= MIN_PASSWORD
    && IsWalletAddress(b.walletAddress)
  }

  /** The new account: the given fields and the schema defaults. */
  function NewAccount(b: RegistroBody): (u: User)
    ensures u.role == Legislador && u.isActive && !u.isRegisteredOnBlockchain
    ensures u.nombre == b.nombre && u.email == b.email && u.walletAddress == b.walletAddress
    ensures CorrectPassword(b.password, u.password)
  {
    NewUser(b.nombre, b.apellido, b.email, b.walletAddress, b.password)
      .(telefono := b.telefono, numeroLegislador := b.numeroLegislador, partido := b.partido,
        distrito := b.distrito)
  }

  /** `registro`: refused by the validators, or created under a fresh id when the schema and
      the unique indexes admit it. */
  function RegistroSpec(st: DbState, b: RegistroBody, emailOk: bool): Step<Id>
  {
    if !RegistroInputOk(b, emailOk) then Step(Refused(InvalidInput), st)
    else
      var id := st.nextId;
      var u := NewAccount(b);
      if CanSaveUser(st, id, u) then Step(Done(id), SetUser(st, id, u).(nextId := id + 1))
      else Step(SaveRejected, st)
  }

  method Registro(db: Db, b: RegistroBody, emailOk: bool) returns (reply: Reply<Id>)
    modifies db
    ensures Step(reply, db.State()) == RegistroSpec(old(db.State()), b, emailOk)
  {
    if !RegistroInputOk(b, emailOk) {
      return Refused(InvalidInput);
    }
    var id := db.nextId;
    var newUser := NewAccount(b);
    if !CanSaveUser(db.State(), id, newUser) {
      return SaveRejected;
    }
    db.users := db.users[id := newUser];
    db.nextId := id + 1;
    reply := Done(id);
  }

  /** A successful sign-up stores one new legislator account, active and off the ledger, that
      logs in with the password it was created with; a sign-up whose validators pass and whose
      keys are free is never rejected. */
  lemma RegistroEffect(st: DbState, b: RegistroBody, emailOk: bool)
    requires Valid(st)
    ensures var r := RegistroSpec(st, b, emailOk);
      && (r.reply.Done? ==>
            && r.reply.value !in st.users && r.reply.value in r.st.users
            && r.st.users == st.users[r.reply.value := NewAccount(b)]
            && Login(emailOk, Some(r.st.users[r.reply.value]), b.password) == LoggedIn)
      && (!r.reply.Done? ==> r.st == st)
  {
  }

  /** The e-mail and wallet indexes reject signing up twice with the same body. */
  lemma RegistroTwiceRejected(st: DbState, b: RegistroBody, emailOk: bool)
    requires RegistroSpec(st, b, emailOk).reply.Done?
    ensures var st1 := RegistroSpec(st, b, emailOk).st;
      RegistroSpec(st1, b, emailOk) == Step(SaveRejected, st1)
  {
    var st1 := RegistroSpec(st, b, emailOk).st;
    assert st.nextId in st1.users && st1.users[st.nextId] == NewAccount(b) && st1.nextId != st.nextId;
  }

  lemma RegistroPreserves(st: DbState, b: RegistroBody, emailOk: bool)
    requires Valid(st) && Coherent(st)
    ensures Valid(RegistroSpec(st, b, emailOk).st) && Coherent(RegistroSpec(st, b, emailOk).st)
  {
    var r := RegistroSpec(st, b, emailOk);
    if r.reply.Done? {
      FreshIdValid(st);
      var big := st.(nextId := st.nextId + 1);
      SetUserValid(big, st.nextId, NewAccount(b));
      assert r.st == SetUser(big, st.nextId, NewAccount(b));
    }
  }

  // ---------------------------------------------------------------------------------
  // login

  datatype LoginReply = LoggedIn | LoginInvalidInput | WrongCredentials | AccountInactive

  /** `login` on the account `User.findOne({ email })` found: an e-mail the `isEmail`
      validator refuses (`emailOk` is its verdict) or an empty password is refused before the
      lookup; a missing account or a wrong password is refused before the account's state is
      looked at; an inactive account is refused last. */
  function Login(emailOk: bool, found: Option<User>, password: string): (r: LoginReply)
    ensures r == LoginInvalidInput <==> !emailOk || password == ""
    ensures r == LoggedIn <==>
      emailOk && password != "" && found.Some? && CorrectPassword(password, found.value.password)
      && found.value.isActive
    ensures r == WrongCredentials <==>
      emailOk && password != "" && (found.None? || !CorrectPassword(password, found.value.password))
    ensures r == AccountInactive ==> found.Some? && CorrectPassword(password, found.value.password)
  {
    if !emailOk || password == "" then LoginInvalidInput
    else if found.None? || !CorrectPassword(password, found.value.password) then WrongCredentials
    else if !found.value.isActive then AccountInactive
    else LoggedIn
  }

  /** The e-mail index makes the lookup of `login` determinate in a valid database. */
  lemma EmailIdentifiesUser(st: DbState, a: Id, b: Id)
    requires Valid(st) && a in st.users && b in st.users && st.users[a].email == st.users[b].email
    ensures a == b
  {
    assert CanSaveUser(st, a, st.users[a]);
  }

  // ---------------------------------------------------------------------------------
  // updateMe

  const ME_FIELDS: seq<string> := ["nombre", "apellido", "email", "telefono", "numeroLegislador", "partido", "distrito"]

  /** The profile after the update, when every given value has the field's type. */
  function ApplyMe(u: User, b: Body): Option<User>
  {
    var nombre := StrField(b, "nombre", u.nombre);
    var apellido := StrField(b, "apellido", u.apellido);
    var email := StrField(b, "email", u.email);
    var telefono := OptStrField(b, "telefono", u.telefono);
    var numero := NullableStrField(b, "numeroLegislador", u.numeroLegislador);
    var partido := OptStrField(b, "partido", u.partido);
    var distrito := OptStrField(b, "distrito", u.distrito);
    if nombre.Some? && apellido.Some? && email.Some? && telefono.Some? && numero.Some?
       && partido.Some? && distrito.Some? then
      Some(u.(nombre := nombre.value, apellido := apellido.value, email := email.value,
              telefono := telefono.value, numeroLegislador := numero.value,
              partido := partido.value, distrito := distrito.value))
    else None
  }

  /** `updateMe` for the signed-in user `id`: a truthy `password` or `passwordConfirm` is
      refused before anything else; otherwise the allowed fields of the body are applied and
      the update validators and unique indexes decide. */
  function UpdateMeSpec(st: DbState, id: Id, body: Body): Step<User>
    requires id in st.users
  {
    if TruthyField(Get(body, "password")) || TruthyField(Get(body, "passwordConfirm")) then
      Step(Refused(InvalidInput), st)
    else match ApplyMe(st.users[id], Filtered(body, ME_FIELDS))
      case None => Step(SaveRejected, st)
      case Some(u2) =>
        if CanSaveUser(st, id, u2) then Step(Done(u2), SetUser(st, id, u2)) else Step(SaveRejected, st)
  }

  method UpdateMe(db: Db, id: Id, body: Body) returns (reply: Reply<User>)
    requires id in db.users
    modifies db
    ensures Step(reply, db.State()) == UpdateMeSpec(old(db.State()), id, body)
  {
    if TruthyField(Get(body, "password")) || TruthyField(Get(body, "passwordConfirm")) {
      return Refused(InvalidInput);
    }
    var filteredBody := FilterObj(body, ME_FIELDS);
    var updated := ApplyMe(db.users[id], filteredBody);
    if updated.None? || !CanSaveUser(db.State(), id, updated.value) {
      return SaveRejected;
    }
    db.users := db.users[id := updated.value];
    reply := Done(updated.value);
  }

  /** `updateMe` changes at most the user's own profile fields: never the role, the active
      flag, the wallet, the ledger flag, the password or the login times, and never another
      user; a body carrying a password changes nothing. */
  lemma UpdateMeOnlyProfile(st: DbState, id: Id, body: Body)
    requires id in st.users
    ensures var r := UpdateMeSpec(st, id, body);
      var u := st.users[id];
      && r.st.sesiones == st.sesiones && r.st.leyes == st.leyes && r.st.nextId == st.nextId
      && r.st.users.Keys == st.users.Keys
      && (forall k :: k in st.users && k != id ==> r.st.users[k] == st.users[k])
      && r.st.users[id].role == u.role && r.st.users[id].isActive == u.isActive
      && r.st.users[id].walletAddress == u.walletAddress
      && r.st.users[id].isRegisteredOnBlockchain == u.isRegisteredOnBlockchain
      && r.st.users[id].password == u.password && r.st.users[id].ultimoLogin == u.ultimoLogin
      && r.st.users[id].passwordChangedAt == u.passwordChangedAt
      && (TruthyField(Get(body, "password")) ==> r == Step(Refused(InvalidInput), st))
      && (!r.reply.Done? ==> r.st == st)
  {
  }

  /** A key outside the allow-list, other than the two password keys, is ignored. */
  lemma UpdateMeIgnoresOtherKeys(st: DbState, id: Id, body: Body, junk: string, v: Json)
    requires id in st.users && junk !in ME_FIELDS && junk != "password" && junk != "passwordConfirm"
    ensures UpdateMeSpec(st, id, body[junk := v]) == UpdateMeSpec(st, id, body)
  {
    var b2 := body[junk := v];
    assert Filtered(b2, ME_FIELDS) == Filtered(body, ME_FIELDS);
    assert Get(b2, "password") == Get(body, "password");
    assert Get(b2, "passwordConfirm") == Get(body, "passwordConfirm");
  }

  /** An explicit `numeroLegislador: null` is stored as `null`, which the sparse unique index
      keys like any value: it is admitted iff no other user already stores `null` there. */
  lemma UpdateMeNullNumero(st: DbState, id: Id)
    requires Valid(st) && id in st.users
    ensures var r := UpdateMeSpec(st, id, map["numeroLegislador" := JNull]);
      && (r.reply.Done? <==> forall k :: k in st.users && k != id ==> !st.users[k].numeroLegislador.Null?)
      && (r.reply.Done? ==> r.st.users[id] == st.users[id].(numeroLegislador := Null))
      && (!r.reply.Done? ==> r.reply == SaveRejected && r.st == st)
  {
    var body: Body := map["numeroLegislador" := JNull];
    assert Filtered(body, ME_FIELDS) == body;
    var u2 := st.users[id].(numeroLegislador := Null);
    assert ApplyMe(st.users[id], body) == Some(u2);
    assert CanSaveUser(st, id, st.users[id]);
  }

  lemma UpdateMePreserves(st: DbState, id: Id, body: Body)
    requires id in st.users && Valid(st) && Coherent(st)
    ensures Valid(UpdateMeSpec(st, id, body).st) && Coherent(UpdateMeSpec(st, id, body).st)
  {
    var r := UpdateMeSpec(st, id, body);
    if r.reply.Done? {
      SetUserValid(st, id, r.reply.value);
    }
  }

  // ---------------------------------------------------------------------------------
  // updatePassword

  /** The route validators of `PATCH /updatePassword`. */
  predicate UpdatePasswordInputOk(actual: string, nueva: string, confirmacion: string)
  {
    actual != "" && |nueva| >= MIN_PASSWORD && confirmacion == nueva
  }

  /** `updatePassword` for the signed-in user `id` at clock `now`: a wrong current password is
      refused; otherwise the new password is hashed and stored and the change is dated one
      second before `now`, so the token issued with the reply is not already stale. */
  function UpdatePasswordSpec(st: DbState, id: Id, actual: string, nueva: string, confirmacion: string,
                              now: Time): Step<User>
    requires id in st.users
  {
    if !UpdatePasswordInputOk(actual, nueva, confirmacion) then Step(Refused(InvalidInput), st)
    else if !CorrectPassword(actual, st.users[id].password) then Step(Refused(WrongPassword), st)
    else
      var u2 := st.users[id].(password := HashPassword(nueva), passwordChangedAt := Some(now - 1000));
      if CanSaveUser(st, id, u2) then Step(Done(u2), SetUser(st, id, u2)) else Step(SaveRejected, st)
  }

  method UpdatePassword(db: Db, id: Id, actual: string, nueva: string, confirmacion: string, now: Time)
    returns (reply: Reply<User>)
    requires id in db.users
    modifies db
    ensures Step(reply, db.State()) == UpdatePasswordSpec(old(db.State()), id, actual, nueva, confirmacion, now)
  {
    if !UpdatePasswordInputOk(actual, nueva, confirmacion) {
      return Refused(InvalidInput);
    }
    var user := db.users[id];
    if !CorrectPassword(actual, user.password) {
      return Refused(WrongPassword);
    }
    user := user.(password := HashPassword(nueva));
    user := user.(passwordChangedAt := Some(now - 1000));
    if !CanSaveUser(db.State(), id, user) {
      return SaveRejected;
    }
    db.users := db.users[id := user];
    reply := Done(user);
  }

  /** With valid input, a wrong current password is refused and nothing changes; the right one
      always succeeds in a valid database; afterwards the new password logs in, any other is
      refused, and only the password and its change time differ. */
  lemma UpdatePasswordEffect(st: DbState, id: Id, actual: string, nueva: string, now: Time, other: string)
    requires Valid(st) && id in st.users && UpdatePasswordInputOk(actual, nueva, nueva)
    ensures var r := UpdatePasswordSpec(st, id, actual, nueva, nueva, now);
      && (r.reply.Done? <==> CorrectPassword(actual, st.users[id].password))
      && (!r.reply.Done? ==> r == Step(Refused(WrongPassword), st))
      && (r.reply.Done? ==>
            && r.st == SetUser(st, id, r.reply.value)
            && CorrectPassword(nueva, r.reply.value.password)
            && (other != nueva ==> !CorrectPassword(other, r.reply.value.password))
            && r.reply.value == st.users[id].(password := r.reply.value.password,
                                              passwordChangedAt := r.reply.value.passwordChangedAt))
  {
    var u2 := st.users[id].(password := HashPassword(nueva), passwordChangedAt := Some(now - 1000));
    ResaveUserAdmitted(st, id, u2);
  }

  /** After a password change at a non-negative clock `now` past the first second, a token
      issued two seconds or more before `now` is rejected, while the token issued with the
      reply, in the second of `now`, is accepted. */
  lemma UpdatePasswordRevokesOldTokens(st: DbState, id: Id, actual: string, nueva: string, now: Time, iat: int)
    requires id in st.users && now >= 1000
    requires UpdatePasswordSpec(st, id, actual, nueva, nueva, now).reply.Done?
    ensures var u := UpdatePasswordSpec(st, id, actual, nueva, nueva, now).reply.value;
      && (iat * 1000 + 2000 <= now ==> ChangedPasswordAfter(u, iat))
      && !ChangedPasswordAfter(u, now / 1000)
  {
    var u := UpdatePasswordSpec(st, id, actual, nueva, nueva, now).reply.value;
    ChangedPasswordAfterSeconds(u, iat);
    ChangedPasswordAfterSeconds(u, now / 1000);
  }

  lemma UpdatePasswordPreserves(st: DbState, id: Id, actual: string, nueva: string, confirmacion: string, now: Time)
    requires id in st.users && Valid(st) && Coherent(st)
    ensures Valid(UpdatePasswordSpec(st, id, actual, nueva, confirmacion, now).st)
    ensures Coherent(UpdatePasswordSpec(st, id, actual, nueva, confirmacion, now).st)
  {
    var r := UpdatePasswordSpec(st, id, actual, nueva, confirmacion, now);
    if r.reply.Done? {
      SetUserValid(st, id, r.reply.value);
    }
  }

  /** `updatePassword` as written: `passwordChangedAt` is not a path of the user schema, so the
      assignment never reaches the database and the stored change time stays as it was. */
  function UpdatePasswordAsWritten(st: DbState, id: Id, actual: string, nueva: string, confirmacion: string): Step<User>
    requires id in st.users
  {
    if !UpdatePasswordInputOk(actual, nueva, confirmacion) then Step(Refused(InvalidInput), st)
    else if !CorrectPassword(actual, st.users[id].password) then Step(Refused(WrongPassword), st)
    else
      var u2 := st.users[id].(password := HashPassword(nueva));
      if CanSaveUser(st, id, u2) then Step(Done(u2), SetUser(st, id, u2)) else Step(SaveRejected, st)
  }

  /** As written, a token issued before the password change keeps working: for an account
      whose change time was never stored, no token, however old, is ever rejected after the
      change. */
  lemma StaleTokenAcceptedAsWritten(st: DbState, id: Id, actual: string, nueva: string, iat: int)
    requires Valid(st) && id in st.users && st.users[id].passwordChangedAt.None?
    requires UpdatePasswordInputOk(actual, nueva, nueva) && CorrectPassword(actual, st.users[id].password)
    ensures var r := UpdatePasswordAsWritten(st, id, actual, nueva, nueva);
      && r.reply.Done?
      && CorrectPassword(nueva, r.st.users[id].password)
      && !ChangedPasswordAfter(r.st.users[id], iat)
  {
    var u2 := st.users[id].(password := HashPassword(nueva));
    ResaveUserAdmitted(st, id, u2);
  }

  // ---------------------------------------------------------------------------------
  // deleteMe

  /** `deleteMe`: the signed-in user's account is marked inactive with a raw update. */
  function DeleteMeSpec(st: DbState, id: Id): DbState
    requires id in st.users
  {
    SetUser(st, id, st.users[id].(isActive := false))
  }

  method DeleteMe(db: Db, id: Id)
    requires id in db.users
    modifies db
    ensures db.State() == DeleteMeSpec(old(db.State()), id)
  {
    db.users := db.users[id := db.users[id].(isActive := false)];
  }

  /** After `deleteMe` the account can no longer log in, whatever the password. */
  lemma DeleteMeBlocksLogin(st: DbState, id: Id, emailOk: bool, password: string)
    requires id in st.users
    ensures Login(emailOk, Some(DeleteMeSpec(st, id).users[id]), password) != LoggedIn
    ensures DeleteMeSpec(st, id).users[id] == st.users[id].(isActive := false)
  {
  }

  lemma DeleteMePreserves(st: DbState, id: Id)
    requires id in st.users && Valid(st) && Coherent(st)
    ensures Valid(DeleteMeSpec(st, id)) && Coherent(DeleteMeSpec(st, id))
  {
    ResaveUserAdmitted(st, id, st.users[id].(isActive := false));
    SetUserValid(st, id, st.users[id].(isActive := false));
  }
}
