/**
 * Shared vocabulary of the storefront model: optional values, identifiers,
 * millisecond time constants and the two rounding operations JavaScript
 * code in the server applies to money and page counts.
 */
module Common {

  /** A value that may be absent (`undefined`/`null` in the source). */
  datatype Option<+T> = None | Some(value: T)

  /** Document identifiers (Mongo ObjectIds, compared as strings). */
  type UserId = string
  type ProductId = string
  type OrderId = string
  type AddressId = string

  /** Milliseconds, the unit of `Date.now()`. */
  const MsPerMinute: int := 60 * 1000
  const MsPerHour: int := 60 * MsPerMinute
  const MsPerDay: int := 24 * MsPerHour

  /** `Math.round`: the nearest integer, halves rounded towards +infinity. */
  function Round(x: real): (r: int)
    ensures r as real - 0.5 <= x < r as real + 0.5
  {
    (x + 0.5).Floor
  }

  /** `Math.ceil`: the least integer not below `x`. */
  function Ceil(x: real): (r: int)
    ensures x <= r as real < x + 1.0
  {
    -((-x).Floor)
  }

  /** Storing under a fresh key keeps every stored entry and adds exactly one. */
  lemma FreshInsert<K, V>(m: map<K, V>, k: K, v: V)
    requires k !in m
    ensures forall j :: j in m ==> j in m[k := v] && m[k := v][j] == m[j]
    ensures m[k := v].Keys == m.Keys + {k} && |m[k := v]| == |m| + 1
  {
    assert m[k := v].Keys == m.Keys + {k};
  }

  /** JavaScript truthiness of an optional string: present and non-empty. */
  predicate Truthy(s: Option<string>)
  {
    s.Some? && s.value != ""
  }
}
