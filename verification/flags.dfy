/** Records of named switches, as the settings pages keep them: a map from
    key to value, updated with `{ ...prev, [key]: ... }`. */
module Flags {

  /** `prev[key]` read as a boolean: a missing key is `undefined`, which is falsy. */
  function Get(m: map<string, bool>, k: string): bool {
    k in m && m[k]
  }

  /** `{ ...prev, [k]: !prev[k] }`: flips `k` (a missing key becomes true)
      and keeps every other entry. */
  function Negate(m: map<string, bool>, k: string): (r: map<string, bool>)
    ensures r.Keys == m.Keys + {k}
    ensures r[k] == !Get(m, k)
    ensures forall j :: j in m && j != k ==> r[j] == m[j]
  {
    m[k := !Get(m, k)]
  }

  /** Flipping a present key twice restores the record. */
  lemma NegateTwice(m: map<string, bool>, k: string)
    requires k in m
    ensures Negate(Negate(m, k), k) == m
  {
  }

  /** Flipping a missing key twice leaves it present and off. */
  lemma NegateTwiceAbsent(m: map<string, bool>, k: string)
    requires k !in m
    ensures Negate(Negate(m, k), k) == m[k := false]
  {
  }

  /** Flips of two keys commute. */
  lemma NegateCommutes(m: map<string, bool>, j: string, k: string)
    ensures Negate(Negate(m, j), k) == Negate(Negate(m, k), j)
  {
  }

  /** `{ ...prev, [k]: v }` for a record of any value type. */
  function Put<V>(m: map<string, V>, k: string, v: V): (r: map<string, V>)
    ensures r.Keys == m.Keys + {k}
    ensures r[k] == v
    ensures forall j :: j in m && j != k ==> r[j] == m[j]
  {
    m[k := v]
  }

  /** Setting the same value twice is setting it once. */
  lemma PutIdempotent<V>(m: map<string, V>, k: string, v: V)
    ensures Put(Put(m, k, v), k, v) == Put(m, k, v)
  {
  }

  /** A later value for the same key overrides an earlier one. */
  lemma PutOverrides<V>(m: map<string, V>, k: string, v: V, w: V)
    ensures Put(Put(m, k, v), k, w) == Put(m, k, w)
  {
  }
}
