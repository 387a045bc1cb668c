/** Shared vocabulary: identifiers, clock values, optional values, request-body values,
    and the string predicates the schemas and the middleware use. */
module Base {

  /** A MongoDB ObjectId, abstracted to a natural number. */
  type Id = nat

  /** A clock value in milliseconds since the epoch (`Date.now()`). */
  type Time = int

  datatype Option<+T> = None | Some(value: T)

  /** A document field that may be missing, hold an explicit `null`, or hold a value. MongoDB
      tells the first two apart: a sparse index skips a missing field but indexes `null`. */
  datatype Nullable<+T> = Unset | Null | Given(value: T)

  /** A value of a JSON request body. */
  datatype Json = JStr(str: string) | JNum(num: int) | JBool(b: bool) | JNull

  /** JavaScript truthiness of a body value. */
  predicate Truthy(v: Json)
  {
    match v
    case JStr(s) => s != ""
    case JNum(n) => n != 0
    case JBool(b) => b
    case JNull => false
  }

  /** A truthy optional body field: present and truthy (`req.body.x || fallback`). */
  predicate TruthyField(v: Option<Json>)
  {
    v.Some? && Truthy(v.value)
  }

  predicate IsHexDigit(c: char)
  {
    ('0' <= c <= '9') || ('a' <= c <= 'f') || ('A' <= c <= 'F')
  }

  /** `^0x[a-fA-F0-9]{n}$` */
  predicate IsPrefixedHex(s: string, n: nat)
  {
    |s| == n + 2 && s[0] == '0' && s[1] == 'x' && forall i :: 2 <= i < |s| ==> IsHexDigit(s[i])
  }

  /** A 32-byte transaction hash, `^0x[a-fA-F0-9]{64}$`. */
  predicate IsTxHash(s: string)
  {
    IsPrefixedHex(s, 64)
  }

  /** An Ethereum address, `^0x[a-fA-F0-9]{40}$`. */
  predicate IsWalletAddress(s: string)
  {
    IsPrefixedHex(s, 40)
  }

  /** An optional transaction hash that is either absent or well formed. */
  predicate OptTxHash(h: Option<string>)
  {
    h.None? || IsTxHash(h.value)
  }

  predicate StartsWith(s: string, p: string)
  {
    |p| <= |s| && s[..|p|] == p
  }

  /** `String.prototype.includes`. */
  predicate Includes(s: string, sub: string)
    decreases |s|
  {
    StartsWith(s, sub) || (|s| > 0 && Includes(s[1..], sub))
  }

  lemma {:induction false} IncludesAppend(a: string, sub: string, b: string)
    ensures Includes(a + sub + b, sub)
    decreases |a|
  {
    if |a| == 0 {
      assert (a + sub + b)[..|sub|] == sub;
    } else {
      assert (a + sub + b)[1..] == a[1..] + sub + b;
      IncludesAppend(a[1..], sub, b);
    }
  }

  /** Index of the first occurrence of `c` in `s`, if any. */
  function IndexOf(s: string, c: char): (r: Option<nat>)
    ensures r.Some? ==> r.value < |s| && s[r.value] == c && c !in s[..r.value]
    ensures r.None? ==> c !in s
  {
    if |s| == 0 then None
    else if s[0] == c then Some(0)
    else match IndexOf(s[1..], c)
      case None => None
      case Some(i) => Some(i + 1)
  }

  /** `String.prototype.split` with a one-character separator. */
  function Split(s: string, sep: char): (r: seq<string>)
    ensures |r| >= 1
    ensures forall i :: 0 <= i < |r| ==> sep !in r[i]
    decreases |s|
  {
    match IndexOf(s, sep)
    case None => [s]
    case Some(i) => [s[..i]] + Split(s[i + 1..], sep)
  }

  /** `Array.prototype.join`. */
  function Join(parts: seq<string>, sep: string): string
  {
    if |parts| == 0 then ""
    else if |parts| == 1 then parts[0]
    else parts[0] + sep + Join(parts[1..], sep)
  }

  /** Splitting on a character and joining back with it returns the original string. */
  lemma {:induction false} JoinSplit(s: string, sep: char)
    ensures Join(Split(s, sep), [sep]) == s
    decreases |s|
  {
    match IndexOf(s, sep)
    case None =>
    case Some(i) =>
      var rest := Split(s[i + 1..], sep);
      JoinSplit(s[i + 1..], sep);
      assert Split(s, sep) == [s[..i]] + rest;
      assert s == s[..i] + [sep] + s[i + 1..];
  }

  /** When the first piece has no separator, splitting `a + sep + b` yields `a` first. */
  lemma SplitFirst(a: string, sep: char, b: string)
    requires sep !in a
    ensures Split(a + [sep] + b, sep)[0] == a
  {
    var s := a + [sep] + b;
    IndexOfPrefix(a, sep, b);
    assert s[..|a|] == a;
  }

  lemma {:induction false} IndexOfPrefix(a: string, sep: char, b: string)
    requires sep !in a
    ensures IndexOf(a + [sep] + b, sep) == Some(|a|)
    decreases |a|
  {
    if |a| > 0 {
      assert (a + [sep] + b)[1..] == a[1..] + [sep] + b;
      IndexOfPrefix(a[1..], sep, b);
    }
  }
}
