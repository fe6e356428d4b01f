/**
 The insertion-ordered collections of the language (`Map` and `Set`): a list of slots, where deleting empties a slot
 for good, adding a new key appends one, and setting a present key rewrites its slot.
 */
module Slots {
  datatype Slot<K, V> = Gone | Kept(key: K, value: V)

  function Find<K(==), V>(es: seq<Slot<K, V>>, k: K): (i: nat)
    ensures i <= |es| && (i < |es| ==> es[i].Kept? && es[i].key == k)
    ensures forall j :: 0 <= j < i ==> es[j].Gone? || es[j].key != k
  {
    if es == [] || (es[0].Kept? && es[0].key == k) then 0 else 1 + Find(es[1..], k)
  }

  function Put<K(==), V>(es: seq<Slot<K, V>>, k: K, v: V): seq<Slot<K, V>> {
    var i := Find(es, k);
    if i < |es| then es[i := Kept(k, v)] else es + [Kept(k, v)]
  }

  function Delete<K(==), V>(es: seq<Slot<K, V>>, k: K): seq<Slot<K, V>> {
    var i := Find(es, k);
    if i < |es| then es[i := Gone] else es
  }

  /** No key has two slots. */
  ghost predicate Unique<K, V>(es: seq<Slot<K, V>>) {
    forall i, j :: 0 <= i < j < |es| && es[i].Kept? && es[j].Kept? ==> es[i].key != es[j].key
  }

  lemma PutUnique<K, V>(es: seq<Slot<K, V>>, k: K, v: V)
    requires Unique(es)
    ensures Unique(Put(es, k, v))
  {
  }

  lemma DeleteUnique<K, V>(es: seq<Slot<K, V>>, k: K)
    requires Unique(es)
    ensures Unique(Delete(es, k))
  {
  }

  /** What iteration yields. */
  function Live<K, V>(es: seq<Slot<K, V>>): seq<(K, V)> {
    if es == [] then []
    else
      var last := es[|es| - 1];
      Live(es[..|es| - 1]) + if last.Kept? then [(last.key, last.value)] else []
  }

  lemma {:induction false} LiveConcat<K, V>(a: seq<Slot<K, V>>, b: seq<Slot<K, V>>)
    ensures Live(a + b) == Live(a) + Live(b)
  {
    if b == [] {
      assert a + b == a;
    } else {
      LiveConcat(a, b[..|b| - 1]);
      assert (a + b)[..|a + b| - 1] == a + b[..|b| - 1];
    }
  }

  lemma LiveThree<K, V>(a: seq<Slot<K, V>>, b: seq<Slot<K, V>>, c: seq<Slot<K, V>>)
    ensures Live(a + b + c) == Live(a) + Live(b) + Live(c)
  {
    hide Live;
    LiveConcat(a, b);
    LiveConcat(a + b, c);
  }

  lemma LiveOne<K, V>(e: Slot<K, V>)
    ensures Live([e]) == if e.Kept? then [(e.key, e.value)] else []
  {
    assert [e][..0] == [];
  }
}
