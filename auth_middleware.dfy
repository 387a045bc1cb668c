/** The request guards of `middleware/auth.js`: `protect`, which reads the bearer token,
    checks it and the account it names in a fixed order and stamps the login time, and the
    two route guards `restrictTo` and `verificarLegisladorRegistrado`. The token signature
    check is a parameter: `verify` says what `jwt.verify` makes of a token string. */
module AuthMiddleware {
  import opened Base
  import opened BlockchainService
  import opened UserModel
  import opened Store
  import AuthController
  import LegisladorController

  /** What `jwt.verify` makes of a token: its payload, or the error it throws. */
  datatype JwtVerdict =
    | Verified(id: Id, iat: int)   // a good signature, not expired: the user id and issue time
    | Malformed                    // `JsonWebTokenError`
    | Expired                      // `TokenExpiredError`
    | OtherFailure                 // any other error thrown inside `protect`

  type Verifier = string -> JwtVerdict

  /** Why `protect` refused the request, with a fixed message per case. */
  datatype Denial =
    | NotAuthenticated   // 401: no token
    | InvalidToken       // 401: the signature check failed
    | ExpiredToken       // 401: the token expired
    | UserGone           // 401: the token names a user that no longer exists
    | AccountDisabled    // 401: the account is deactivated
    | PasswordChanged    // 401: the password changed after the token was issued
    | AuthFailure        // 500: any other error

  function DenialStatus(d: Denial): (code: nat)
    ensures code == 500 <==> d == AuthFailure
    ensures code != 500 ==> code == 401
  {
    if d == AuthFailure then 500 else 401
  }

  /** The guard's verdict: the request goes on with `req.user` set, or is answered. */
  datatype Guard = Granted(id: Id, user: User) | Denied(why: Denial)

  /** The verdict and the database afterwards. */
  datatype Access = Access(guard: Guard, st: DbState)

  // ---------------------------------------------------------------------------------
  // The bearer token

  /** The second space-separated piece of the `Authorization` header, when the header starts
      with `Bearer`; an absent or empty piece is no token. */
  function Token(header: Option<string>): Option<string>
  {
    if header.None? || !StartsWith(header.value, "Bearer") then None
    else
      var pieces := Split(header.value, ' ');
      if |pieces| > 1 && pieces[1] != "" then Some(pieces[1]) else None
  }

  /** A token never contains a space and is never empty. */
  lemma TokenShape(header: Option<string>)
    ensures Token(header).Some? ==> Token(header).value != "" && ' ' !in Token(header).value
    ensures Token(header).Some? ==> header.Some? && StartsWith(header.value, "Bearer")
  {
  }

  /** `Bearer <t>` yields `t` for every non-empty `t` without spaces. */
  lemma BearerRoundTrip(t: string)
    requires t != "" && ' ' !in t
    ensures Token(Some("Bearer " + t)) == Some(t)
  {
    var h := "Bearer " + t;
    assert h == "Bearer" + [' '] + t;
    SplitAfter("Bearer", ' ', t);
    assert Split(t, ' ') == [t];
    assert h[..6] == "Bearer";
  }

  /** A header that does not start with `Bearer` yields no token, whatever follows. */
  lemma OtherSchemeNoToken(scheme: string, t: string)
    requires |scheme| >= 6 && scheme[..6] != "Bearer"
    ensures Token(Some(scheme + " " + t)) == None
  {
    assert (scheme + " " + t)[..6] == scheme[..6];
  }

  /** `Bearer` followed by two spaces yields no token: the second piece is empty. */
  lemma DoubleSpaceNoToken(t: string)
    ensures Token(Some("Bearer  " + t)) == None
  {
    var h := "Bearer  " + t;
    assert h == "Bearer" + [' '] + ([' '] + t);
    SplitAfter("Bearer", ' ', [' '] + t);
    assert IndexOf([' '] + t, ' ') == Some(0);
    assert Split([' '] + t, ' ')[0] == "";
  }

  /** When the first piece has no separator, splitting `a + sep + b` is `a` followed by the
      pieces of `b`. */
  lemma SplitAfter(a: string, sep: char, b: string)
    requires sep !in a
    ensures Split(a + [sep] + b, sep) == [a] + Split(b, sep)
  {
    var s := a + [sep] + b;
    IndexOfPrefix(a, sep, b);
    assert s[..|a|] == a;
    assert s[|a| + 1..] == b;
  }

  // ---------------------------------------------------------------------------------
  // protect

  /** `protect`: no token, then the token check, then the account checks in order (exists,
      active, password not changed since issue); on success `ultimoLogin` is stamped and the
      user saved without the schema validators, so only the unique indexes can refuse it. */
  function ProtectSpec(st: DbState, header: Option<string>, verify: Verifier, now: Time): Access
  {
    match Token(header)
    case None => Access(Denied(NotAuthenticated), st)
    case Some(t) =>
      match verify(t)
      case Malformed => Access(Denied(InvalidToken), st)
      case Expired => Access(Denied(ExpiredToken), st)
      case OtherFailure => Access(Denied(AuthFailure), st)
      case Verified(id, iat) =>
        if id !in st.users then Access(Denied(UserGone), st)
        else if !st.users[id].isActive then Access(Denied(AccountDisabled), st)
        else if ChangedPasswordAfter(st.users[id], iat) then Access(Denied(PasswordChanged), st)
        else
          var u2 := st.users[id].(ultimoLogin := Some(now));
          if UserKeysFree(st, id, u2) then Access(Granted(id, u2), SetUser(st, id, u2))
          else Access(Denied(AuthFailure), st)
  }

  method Protect(db: Db, header: Option<string>, verify: Verifier, now: Time) returns (g: Guard)
    modifies db
    ensures Access(g, db.State()) == ProtectSpec(old(db.State()), header, verify, now)
  {
    var token: Option<string> := None;
    if header.Some? && StartsWith(header.value, "Bearer") {
      var pieces := Split(header.value, ' ');
      if |pieces| > 1 {
        token := Some(pieces[1]);
      }
    }
    if token.None? || token.value == "" {
      return Denied(NotAuthenticated);
    }
    var decoded := verify(token.value);
    match decoded {
      case Malformed => return Denied(InvalidToken);
      case Expired => return Denied(ExpiredToken);
      case OtherFailure => return Denied(AuthFailure);
      case Verified(id, iat) =>
        if id !in db.users {
          return Denied(UserGone);
        }
        var currentUser := db.users[id];
        if !currentUser.isActive {
          return Denied(AccountDisabled);
        }
        if ChangedPasswordAfter(currentUser, iat) {
          return Denied(PasswordChanged);
        }
        currentUser := currentUser.(ultimoLogin := Some(now));
        if !UserKeysFree(db.State(), id, currentUser) {
          return Denied(AuthFailure);
        }
        db.users := db.users[id := currentUser];
        g := Granted(id, currentUser);
    }
  }

  /** Without a token the request is refused with 401 before any look-up, whatever the
      database and the token checker. */
  lemma NoTokenRefusedFirst(st: DbState, header: Option<string>, verify: Verifier, now: Time)
    requires Token(header).None?
    ensures ProtectSpec(st, header, verify, now) == Access(Denied(NotAuthenticated), st)
    ensures DenialStatus(NotAuthenticated) == 401
  {
  }

  /** Each check decides in its turn: on a stored database, access is granted exactly when
      every check passes, each denial happens exactly when the checks before it passed and it
      failed, and only a granted request changes the database (the login time). */
  lemma ProtectEffect(st: DbState, header: Option<string>, verify: Verifier, now: Time)
    requires Valid(st)
    ensures var r := ProtectSpec(st, header, verify, now);
      var t := Token(header);
      var v := if t.Some? then verify(t.value) else OtherFailure;
      && (r.guard == Denied(NotAuthenticated) <==> t.None?)
      && (r.guard == Denied(InvalidToken) <==> t.Some? && v.Malformed?)
      && (r.guard == Denied(ExpiredToken) <==> t.Some? && v.Expired?)
      && (r.guard == Denied(AuthFailure) <==> t.Some? && v.OtherFailure?)
      && (r.guard == Denied(UserGone) <==> t.Some? && v.Verified? && v.id !in st.users)
      && (r.guard == Denied(AccountDisabled) <==>
            t.Some? && v.Verified? && v.id in st.users && !st.users[v.id].isActive)
      && (r.guard == Denied(PasswordChanged) <==>
            t.Some? && v.Verified? && v.id in st.users && st.users[v.id].isActive
            && ChangedPasswordAfter(st.users[v.id], v.iat))
      && (r.guard.Granted? <==>
            t.Some? && v.Verified? && v.id in st.users && st.users[v.id].isActive
            && !ChangedPasswordAfter(st.users[v.id], v.iat))
      && (r.guard.Denied? ==> r.st == st)
  {
    var t := Token(header);
    if t.Some? && verify(t.value).Verified? {
      var id := verify(t.value).id;
      if id in st.users {
        assert CanSaveUser(st, id, st.users[id]);
      }
    }
  }

  /** A granted request carries the stored account of the token's user with the new login
      time: active, its password unchanged since the token was issued, and stored as such. */
  lemma ProtectGranted(st: DbState, header: Option<string>, verify: Verifier, now: Time)
    requires ProtectSpec(st, header, verify, now).guard.Granted?
    ensures var r := ProtectSpec(st, header, verify, now);
      var v := verify(Token(header).value);
      && Token(header).Some? && v.Verified? && r.guard.id == v.id
      && v.id in st.users && r.guard.user == st.users[v.id].(ultimoLogin := Some(now))
      && r.guard.user.isActive && !ChangedPasswordAfter(r.guard.user, v.iat)
      && r.st == SetUser(st, v.id, r.guard.user)
  {
  }

  /** `protect` keeps both database invariants. */
  lemma ProtectPreserves(st: DbState, header: Option<string>, verify: Verifier, now: Time)
    requires Valid(st) && Coherent(st)
    ensures Valid(ProtectSpec(st, header, verify, now).st)
    ensures Coherent(ProtectSpec(st, header, verify, now).st)
  {
    var r := ProtectSpec(st, header, verify, now);
    if r.guard.Granted? {
      ProtectGranted(st, header, verify, now);
      var id, u := r.guard.id, r.guard.user;
      ResaveUserAdmitted(st, id, u);
      SetUserValid(st, id, u);
      assert r.st == SetUser(st, id, u);
    } else {
      ProtectEffect(st, header, verify, now);
    }
  }

  // ---------------------------------------------------------------------------------
  // Password changes and the guard

  /** After a password change, a token issued at least two seconds before it is refused as
      stale, for an account that is otherwise allowed in. */
  lemma ProtectAfterPasswordChange(st: DbState, id: Id, actual: string, nueva: string, now: Time,
                                   header: Option<string>, verify: Verifier, iat: int, later: Time)
    requires id in st.users && st.users[id].isActive && now >= 1000
    requires AuthController.UpdatePasswordSpec(st, id, actual, nueva, nueva, now).reply.Done?
    requires Token(header).Some? && verify(Token(header).value) == Verified(id, iat)
    requires iat * 1000 + 2000 <= now
    ensures var st1 := AuthController.UpdatePasswordSpec(st, id, actual, nueva, nueva, now).st;
      ProtectSpec(st1, header, verify, later) == Access(Denied(PasswordChanged), st1)
  {
    AuthController.UpdatePasswordRevokesOldTokens(st, id, actual, nueva, now, iat);
  }

  /** As written (the change time is never stored), the same stale token is still accepted
      after the password change. */
  lemma ProtectAfterPasswordChangeAsWritten(st: DbState, id: Id, actual: string, nueva: string,
                                            header: Option<string>, verify: Verifier, iat: int, later: Time)
    requires Valid(st) && id in st.users && st.users[id].isActive && st.users[id].passwordChangedAt.None?
    requires AuthController.UpdatePasswordInputOk(actual, nueva, nueva)
    requires CorrectPassword(actual, st.users[id].password)
    requires Token(header).Some? && verify(Token(header).value) == Verified(id, iat)
    ensures var st1 := AuthController.UpdatePasswordAsWritten(st, id, actual, nueva, nueva).st;
      ProtectSpec(st1, header, verify, later).guard.Granted?
  {
    AuthController.StaleTokenAcceptedAsWritten(st, id, actual, nueva, iat);
    assert CanSaveUser(st, id, st.users[id]);
  }

  // ---------------------------------------------------------------------------------
  // Route guards

  /** `restrictTo(...roles)`: the request goes on exactly when the user's role is listed. */
  predicate RestrictTo(roles: seq<Role>, u: User)
  {
    u.role in roles
  }

  /** The admin-only routes admit exactly the administrators, and listing both roles admits
      every user. */
  lemma RestrictToRoles(u: User)
    ensures RestrictTo([Admin], u) <==> u.role == Admin
    ensures RestrictTo([Legislador], u) <==> u.role == Legislador
    ensures RestrictTo([Admin, Legislador], u)
    ensures !RestrictTo([], u)
  {
  }

  /** `verificarLegisladorRegistrado`: the vote route goes on exactly when the user is
      registered on the ledger. */
  predicate VerificarLegisladorRegistrado(u: User)
  {
    u.isRegisteredOnBlockchain
  }

  /** The vote route (`protect` then `verificarLegisladorRegistrado`, with no role check) lets
      a request that `protect` granted through exactly when the stored account is flagged on
      the ledger, whatever its role; what it lets through comes from an active stored account. */
  lemma VoteRouteAdmits(st: DbState, header: Option<string>, verify: Verifier, now: Time)
    requires ProtectSpec(st, header, verify, now).guard.Granted?
    ensures var g := ProtectSpec(st, header, verify, now).guard;
      && g.id in st.users && st.users[g.id].isActive
      && (VerificarLegisladorRegistrado(g.user) <==> st.users[g.id].isRegisteredOnBlockchain)
      && g.user.role == st.users[g.id].role
  {
  }

  /** Once removed from the ledger, a legislator's later requests never pass the vote route. */
  lemma EliminatedCannotVote(st: DbState, id: Id, call: LedgerResult<Receipt>,
                             header: Option<string>, verify: Verifier, now: Time)
    requires LegisladorController.Eliminar(st, id, call).reply.Done?
    ensures var st1 := LegisladorController.Eliminar(st, id, call).st;
      var g := ProtectSpec(st1, header, verify, now).guard;
      g.Granted? && g.id == id ==> !VerificarLegisladorRegistrado(g.user)
  {
  }

  /** Once soft-deleted, a legislator's later requests are refused by `protect`. */
  lemma SoftDeletedLockedOut(st: DbState, id: Id, header: Option<string>, verify: Verifier, now: Time)
    requires id in st.users
    requires Token(header).Some? && verify(Token(header).value).Verified? && verify(Token(header).value).id == id
    ensures var st1 := LegisladorController.SoftDelete(st, id).st;
      ProtectSpec(st1, header, verify, now) == Access(Denied(AccountDisabled), st1)
  {
  }
}
