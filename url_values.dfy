/** Go's `url.Values`: a multimap from a parameter name to the list of its
    values. Only `Add` is used to build it, so only `Add` is modelled. */
module UrlValues {

  type Values = map<string, seq<string>>

  /** The values stored under `key`; a missing key has none (Go's `v[key]` is nil). */
  function Get(vals: Values, key: string): seq<string>
  {
    if key in vals then vals[key] else []
  }

  /** No key is stored with an empty list of values. `Add` only ever creates
      a key together with a value, so every multimap built by `Add` from the
      empty one satisfies this. */
  predicate WellFormed(vals: Values)
  {
    forall key :: key in vals ==> vals[key] != []
  }

  /** `Values.Add`: appends `value` to the values already stored under `key`,
      keeping them. */
  function Add(vals: Values, key: string, value: string): (r: Values)
    ensures Get(r, key) == Get(vals, key) + [value]
    ensures WellFormed(vals) ==> WellFormed(r)
  {
    vals[key := Get(vals, key) + [value]]
  }

  /** `Add` leaves every other key, and the values stored under it, alone. */
  lemma AddKeepsOtherKeys(vals: Values, key: string, value: string, other: string)
    requires other != key
    ensures Get(Add(vals, key, value), other) == Get(vals, other)
    ensures other in Add(vals, key, value) <==> other in vals
  {
  }

  /** Two well-formed multimaps that hold the same values under every name
      are the same multimap. */
  lemma SameValuesSameMultimap(a: Values, b: Values)
    requires WellFormed(a) && WellFormed(b)
    requires forall key :: Get(a, key) == Get(b, key)
    ensures a == b
  {
    forall key | key in a || key in b
      ensures key in a && key in b && a[key] == b[key]
    {
      assert Get(a, key) == Get(b, key);
    }
  }
}
