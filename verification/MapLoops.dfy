/**
 Loops over the entries of a map, which the programs visit in no particular order and may delete on the way.
 */
module MapLoops {

  lemma MapsEqual<K, V>(a: map<K, V>, b: map<K, V>)
    requires a.Keys == b.Keys && forall k | k in a :: a[k] == b[k]
    ensures a == b
  {
  }

  // A loop over a map has brought every entry outside `keys` to what `after` has.
  ghost predicate HalfDone<V>(before: map<int, V>, conns: map<int, V>, keys: set<int>,
                           after: map<int, V>) {
    && keys <= before.Keys
    && (forall c :: c in conns <==> c in keys || c in after)
    && (forall c | c in conns :: conns[c] == if c in keys then before[c] else after[c])
  }

  lemma NothingDone<V>(before: map<int, V>, after: map<int, V>)
    requires after.Keys <= before.Keys
    ensures HalfDone(before, before, before.Keys, after)
  {
  }

  lemma OneMoreDone<V>(before: map<int, V>, conns: map<int, V>, keys: set<int>,
                    after: map<int, V>, k: int)
    requires HalfDone(before, conns, keys, after) && k in keys
    ensures k in before && k in conns && conns[k] == before[k]
    ensures k in after ==> HalfDone(before, conns[k := after[k]], keys - {k}, after)
    ensures k !in after ==> HalfDone(before, conns - {k}, keys - {k}, after)
  {
  }

  lemma OneLessWanted<V>(before: map<int, V>, conns: map<int, V>, keys: set<int>,
                      after: map<int, V>, k: int)
    requires HalfDone(before, conns, keys, after) && k !in keys
    ensures HalfDone(before, conns - {k}, keys, after - {k})
  {
  }

  lemma AllDone<V>(before: map<int, V>, conns: map<int, V>, keys: set<int>,
                after: map<int, V>)
    requires HalfDone(before, conns, keys, after) && !exists k :: k in keys
    ensures conns == after
  {
    forall c
      ensures c in conns.Keys <==> c in after.Keys
    {
      assert c !in keys && (c in conns <==> c in keys || c in after);
    }
    assert forall c | c in conns :: c !in keys && conns[c] == after[c];
    MapsEqual(conns, after);
  }
}
