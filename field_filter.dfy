/** The allow-list filter on request bodies: `filterObj` and the allow-list loops of
    `updateSesion` and `updateLey`, which copy the allowed keys of the body one by one. */
module FieldFilter {
  import opened Base

  /** A request body: its keys and values. */
  type Body = map<string, Json>

  /** The body restricted to the allowed keys. */
  function Filtered(obj: Body, allowed: seq<string>): Body
  {
    map k | k in obj && k in allowed :: obj[k]
  }

  /** Copies each key of `obj` that is allowed into a new body. */
  method FilterObj(obj: Body, allowed: seq<string>) returns (r: Body)
    ensures r == Filtered(obj, allowed)
  {
    r := map[];
    var remaining := obj.Keys;
    while remaining != {}
      invariant remaining <= obj.Keys
      invariant r == map k | k in obj && k !in remaining && k in allowed :: obj[k]
      decreases |remaining|
    {
      var el :| el in remaining;
      if el in allowed {
        r := r[el := obj[el]];
      }
      remaining := remaining - {el};
    }
  }

  /** The filtered body holds exactly the keys of the body that are allowed, with their values. */
  lemma FilteredExactly(obj: Body, allowed: seq<string>, k: string)
    ensures k in Filtered(obj, allowed) <==> k in obj && k in allowed
    ensures k in Filtered(obj, allowed) ==> Filtered(obj, allowed)[k] == obj[k]
  {
  }

  /** Filtering never adds a key, and filtering twice with the same list is filtering once. */
  lemma FilteredIdempotent(obj: Body, allowed: seq<string>)
    ensures Filtered(obj, allowed).Keys <= obj.Keys
    ensures Filtered(Filtered(obj, allowed), allowed) == Filtered(obj, allowed)
  {
  }

  /** The new value of a string field: unchanged when absent, the string when one is given,
      nothing (a rejected update) otherwise. */
  function StrField(u: Body, k: string, current: string): Option<string>
  {
    if k !in u then Some(current)
    else match u[k]
      case JStr(s) => Some(s)
      case _ => None
  }

  function IntField(u: Body, k: string, current: int): Option<int>
  {
    if k !in u then Some(current)
    else match u[k]
      case JNum(n) => Some(n)
      case _ => None
  }

  /** The new value of an optional string field: unchanged when absent, the string when one
      is given, unset for `null`, nothing (a rejected update) otherwise. */
  function OptStrField(u: Body, k: string, current: Option<string>): Option<Option<string>>
  {
    if k !in u then Some(current)
    else match u[k]
      case JStr(s) => Some(Some(s))
      case JNull => Some(None)
      case _ => None
  }

  /** The new value of a field that keeps an explicit `null`: unchanged when absent, the
      string when one is given, a stored `null` for `null`, nothing otherwise. */
  function NullableStrField(u: Body, k: string, current: Nullable<string>): Option<Nullable<string>>
  {
    if k !in u then Some(current)
    else match u[k]
      case JStr(s) => Some(Given(s))
      case JNull => Some(Null)
      case _ => None
  }

  /** The body value at `k`, if any. */
  function Get(u: Body, k: string): Option<Json>
  {
    if k in u then Some(u[k]) else None
  }
}
