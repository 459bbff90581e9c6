/**
 The per-url stores of the download view (`downloadProgress`, `isDownloading`)
 are plain JavaScript objects updated with the spread idiom `{ ...prev, [k]: v }`.
 This module gives that idiom one explicit definition, `Put`, together with the
 facts the rest of the model relies on: a key with no own entry reads as
 `None` (the object's `undefined`, for keys that do not name a property every
 object inherits, such as `constructor` or `toString`), a write replaces the
 whole entry, and a write touches no other key.
 */
module KeyedStore {

  /** An optional value; `None` stands for JavaScript's `null`, or `undefined` read
      from a key with no own and no inherited property. */
  datatype Option<+T> = None | Some(value: T)

  /** Reading `m[k]` from a JavaScript object: the own entry, or `None` when there is
      none. Keys are assumed not to name inherited `Object.prototype` properties. */
  function Lookup<K, V>(m: map<K, V>, k: K): Option<V>
  {
    if k in m then Some(m[k]) else None
  }

  /** `m` and `m'` hold the same entry (or the same absence) for every key but `k`. */
  ghost predicate AgreeExcept<K(!new), V>(m: map<K, V>, m': map<K, V>, k: K)
  {
    forall j :: j != k ==> Lookup(m, j) == Lookup(m', j)
  }

  /** The spread update `{ ...m, [k]: v }`: the new entry replaces the old one
      unconditionally, and every other key keeps what it had. */
  function Put<K(!new), V>(m: map<K, V>, k: K, v: V): (r: map<K, V>)
    ensures Lookup(r, k) == Some(v)
    ensures AgreeExcept(r, m, k)
    ensures r.Keys == m.Keys + {k}
  {
    m[k := v]
  }

  /** Last write wins: a second write to the same key erases every trace of the first. */
  lemma PutLastWriteWins<K(!new), V>(m: map<K, V>, k: K, a: V, b: V)
    ensures Put(Put(m, k, a), k, b) == Put(m, k, b)
  {
  }

  /** Writes to distinct keys commute. */
  lemma PutCommutes<K(!new), V>(m: map<K, V>, k1: K, a: V, k2: K, b: V)
    requires k1 != k2
    ensures Put(Put(m, k1, a), k2, b) == Put(Put(m, k2, b), k1, a)
  {
  }
}
