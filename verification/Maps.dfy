/** Maps in the middle of a loop that rewrites one key at a time. */
module Maps {

  /** `a` with the keys outside `todo` already taken over from `b`. */
  function Mixed<K, V>(a: map<K, V>, b: map<K, V>, todo: set<K>): map<K, V>
    requires a.Keys == b.Keys
  {
    map k | k in a :: if k in todo then a[k] else b[k]
  }

  lemma MixedEnds<K, V>(a: map<K, V>, b: map<K, V>)
    requires a.Keys == b.Keys
    ensures Mixed(a, b, a.Keys) == a
    ensures Mixed(a, b, {}) == b
  {
  }

  lemma MixedStep<K, V>(a: map<K, V>, b: map<K, V>, todo: set<K>, k: K)
    requires a.Keys == b.Keys && k in todo && k in a
    ensures Mixed(a, b, todo)[k] == a[k]
    ensures Mixed(a, b, todo)[k := b[k]] == Mixed(a, b, todo - {k})
    ensures a[k] == b[k] ==> Mixed(a, b, todo - {k}) == Mixed(a, b, todo)
  {
  }

  /** `a` with the keys in `done` added or taken over from `b`. */
  function Merged<K, V>(a: map<K, V>, b: map<K, V>, done: set<K>): map<K, V>
    requires done <= b.Keys
  {
    map k | k in a.Keys + done :: if k in done then b[k] else a[k]
  }

  lemma MergedStep<K, V>(a: map<K, V>, b: map<K, V>, done: set<K>, k: K)
    requires done <= b.Keys && k in b
    ensures Merged(a, b, done)[k := b[k]] == Merged(a, b, done + {k})
    ensures k !in done ==> (k in Merged(a, b, done) <==> k in a) && (k in a ==> Merged(a, b, done)[k] == a[k])
  {
  }
}
