/** The user record (`User`): schema, defaults, `nombreCompleto`, `correctPassword` and
    `changedPasswordAfter`. */
module UserModel {
  import opened Base

  datatype Role = Admin | Legislador

  /** A stored password. bcrypt is modelled as an ideal commitment: the stored value determines
      the one plain text it accepts; salts and cost factors are not modelled. */
  datatype PasswordHash = Bcrypt(secret: string)

  datatype User = User(
    nombre: string,
    apellido: string,
    email: string,
    telefono: Option<string>,
    numeroLegislador: Nullable<string>,
    partido: Option<string>,
    distrito: Option<string>,
    walletAddress: string,
    password: PasswordHash,
    role: Role,
    isActive: bool,
    isRegisteredOnBlockchain: bool,
    ultimoLogin: Option<Time>,
    passwordChangedAt: Option<Time>)

  const MAX_NOMBRE: nat := 100
  const MAX_TELEFONO: nat := 20
  const MAX_PARTIDO: nat := 100
  const MIN_PASSWORD: nat := 6

  predicate OptMaxLen(s: Option<string>, n: nat)
  {
    s.None? || |s.value| <= n
  }

  /** The validators Mongoose runs when a user is saved; the password length is checked on the
      plain text, before the pre-save hook hashes it. */
  predicate SchemaValid(u: User)
  {
    && 0 < |u.nombre| <= MAX_NOMBRE
    && 0 < |u.apellido| <= MAX_NOMBRE
    && |u.email| > 0
    && OptMaxLen(u.telefono, MAX_TELEFONO)
    && OptMaxLen(u.partido, MAX_PARTIDO)
    && OptMaxLen(u.distrito, MAX_PARTIDO)
    && IsWalletAddress(u.walletAddress)
    && |u.password.secret| >= MIN_PASSWORD
  }

  /** A new account with the schema defaults: a legislator, active, not on the ledger. */
  function NewUser(nombre: string, apellido: string, email: string, walletAddress: string,
                   password: string): (u: User)
    ensures u.role == Legislador && u.isActive && !u.isRegisteredOnBlockchain
    ensures u.passwordChangedAt.None? && u.ultimoLogin.None?
  {
    User(nombre, apellido, email, None, Unset, None, None, walletAddress, Bcrypt(password),
         Legislador, true, false, None, None)
  }

  /** The pre-save hash hook. */
  function HashPassword(plain: string): (h: PasswordHash)
    ensures CorrectPassword(plain, h)
    ensures forall other :: other != plain ==> !CorrectPassword(other, h)
  {
    Bcrypt(plain)
  }

  /** `correctPassword`: whether the candidate is the stored password's plain text. */
  predicate CorrectPassword(candidate: string, stored: PasswordHash)
  {
    candidate == stored.secret
  }

  /** The `nombreCompleto` virtual. */
  function NombreCompleto(u: User): (s: string)
    ensures |s| == |u.nombre| + 1 + |u.apellido|
    ensures s[|u.nombre|] == ' '
  {
    u.nombre + " " + u.apellido
  }

  /** Given names without a space, the first space-separated word of the full name is the name
      and the rest is the surname. */
  lemma NombreCompletoSplits(u: User)
    requires ' ' !in u.nombre
    ensures Split(NombreCompleto(u), ' ')[0] == u.nombre
    ensures NombreCompleto(u)[|u.nombre| + 1..] == u.apellido
  {
    assert NombreCompleto(u) == u.nombre + [' '] + u.apellido;
    SplitFirst(u.nombre, ' ', u.apellido);
  }

  /** `parseInt(x, 10)` of a number: truncation toward zero. The quotient has the sign of
      `a` and is the multiple of `b` nearest to `a` on the side of zero. */
  function TruncDiv(a: int, b: int): (q: int)
    requires b > 0
    ensures a >= 0 ==> 0 <= q && q * b <= a < q * b + b
    ensures a < 0 ==> q <= 0 && q * b - b < a <= q * b
  {
    if a >= 0 then
      DivBounds(a, b);
      a / b
    else
      DivBounds(-a, b);
      NegMul((-a) / b, b);
      -((-a) / b)
  }

  /** Euclidean division of a non-negative number brackets it between consecutive multiples. */
  lemma DivBounds(a: nat, b: int)
    requires b > 0
    ensures 0 <= a / b && (a / b) * b <= a < (a / b) * b + b
  {
  }

  lemma NegMul(p: int, b: int)
    ensures (-p) * b == -(p * b)
  {
  }

  /** `changedPasswordAfter(iat)`: false without a recorded change, otherwise whether the token
      was issued (in seconds) before the change (in milliseconds, truncated to seconds). */
  predicate ChangedPasswordAfter(u: User, jwtTimestamp: int)
  {
    u.passwordChangedAt.Some? && jwtTimestamp < TruncDiv(u.passwordChangedAt.value, 1000)
  }

  /** For a change recorded at a non-negative clock value, a token issued at second `iat` is
      stale exactly when `iat` is strictly before the second in which the change falls:
      a token issued in that same second, or later, is still accepted. */
  lemma ChangedPasswordAfterSeconds(u: User, iat: int)
    requires u.passwordChangedAt.Some? && u.passwordChangedAt.value >= 0
    ensures ChangedPasswordAfter(u, iat) <==> iat * 1000 + 1000 <= u.passwordChangedAt.value
  {
    var t := u.passwordChangedAt.value;
    var q := t / 1000;
    assert q * 1000 <= t < q * 1000 + 1000;
    if iat < q {
      assert iat * 1000 + 1000 <= q * 1000;
    } else {
      assert iat * 1000 >= q * 1000;
    }
  }

  /** For a change recorded at a negative clock value, truncation goes up toward zero: a
      token issued at second `iat` is stale exactly when `iat * 1000` is strictly before the
      change. */
  lemma ChangedPasswordAfterNegative(u: User, iat: int)
    requires u.passwordChangedAt.Some? && u.passwordChangedAt.value < 0
    ensures ChangedPasswordAfter(u, iat) <==> iat * 1000 < u.passwordChangedAt.value
  {
    var t := u.passwordChangedAt.value;
    var q := TruncDiv(t, 1000);
    assert q * 1000 - 1000 < t <= q * 1000;
    if iat < q {
      assert iat * 1000 + 1000 <= q * 1000;
    } else {
      assert iat * 1000 >= q * 1000;
    }
  }

  /** A record without a change time never rejects a token. */
  lemma NoChangeNeverStale(u: User, iat: int)
    requires u.passwordChangedAt.None?
    ensures !ChangedPasswordAfter(u, iat)
  {
  }
}
