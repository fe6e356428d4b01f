/**
 Event logs, whatever the events and the state they fold into: folding a log (foldAll in protocol/src/state.ts),
 compacting it by merging neighbours (compacted_append and coalesce_events in
 server/pantoken-server/src/journal.rs), and when compaction preserves what the log means.
 */
module Logs {
  import opened Options

  /** `foldAll`. */
  function FoldAll<S, E>(step: (S, E) -> S, s: S, es: seq<E>): S {
    if es == [] then s else step(FoldAll(step, s, es[..|es| - 1]), es[|es| - 1])
  }

  lemma {:induction false} FoldAllConcat<S, E>(step: (S, E) -> S, s: S, a: seq<E>, b: seq<E>)
    ensures FoldAll(step, s, a + b) == FoldAll(step, FoldAll(step, s, a), b)
    decreases |b|
  {
    if b == [] {
      assert a + b == a;
    } else {
      var n := |b| - 1;
      assert (a + b)[..|a + b| - 1] == a + b[..n];
      FoldAllConcat(step, s, a, b[..n]);
    }
  }

  lemma FoldAllOne<S, E>(step: (S, E) -> S, s: S, e: E)
    ensures FoldAll(step, s, [e]) == step(s, e)
  {
    assert [e][..0] == [];
    assert FoldAll(step, s, [e][..0]) == s;
  }

  lemma FoldAllPush<S, E>(step: (S, E) -> S, s: S, es: seq<E>, e: E)
    ensures FoldAll(step, s, es + [e]) == step(FoldAll(step, s, es), e)
  {
    assert (es + [e])[..|es|] == es;
  }

  lemma FoldAllThree<S, E>(step: (S, E) -> S, s: S, a: E, b: E, c: E)
    ensures FoldAll(step, s, [a, b, c]) == step(step(step(s, a), b), c)
  {
    FoldAllOne(step, s, a);
    FoldAllPush(step, s, [a], b);
    FoldAllPush(step, s, [a] + [b], c);
    assert [a] + [b] + [c] == [a, b, c];
  }

  // --- Compaction ------------------------------------------------------------

  /** `compacted_append`. */
  function Absorb<E>(merge: (E, E) -> Option<E>, out: seq<E>, e: E): seq<E> {
    if out != [] && merge(out[|out| - 1], e).Some?
    then out[..|out| - 1] + [merge(out[|out| - 1], e).value]
    else out + [e]
  }

  /** `coalesce_events`. */
  function Coalesced<E>(merge: (E, E) -> Option<E>, es: seq<E>): seq<E> {
    if es == [] then [] else Absorb(merge, Coalesced(merge, es[..|es| - 1]), es[|es| - 1])
  }

  method CoalesceEvents<E>(merge: (E, E) -> Option<E>, es: seq<E>) returns (out: seq<E>)
    ensures out == Coalesced(merge, es)
  {
    out := [];
    for i := 0 to |es|
      invariant out == Coalesced(merge, es[..i])
    {
      assert es[..i + 1][..i] == es[..i];
      out := Absorb(merge, out, es[i]);
    }
    assert es[..|es|] == es;
  }

  /** Merging two events does not make the first mergeable with what stands before it. */
  ghost predicate KeepsNeighbours<E(!new)>(merge: (E, E) -> Option<E>) {
    forall a, b, c :: merge(a, b).None? && merge(b, c).Some? ==> merge(a, merge(b, c).value).None?
  }

  /** Nothing left to merge. */
  predicate Settled<E>(merge: (E, E) -> Option<E>, es: seq<E>) {
    forall i :: 0 < i < |es| ==> merge(es[i - 1], es[i]).None?
  }

  lemma AbsorbSettled<E(!new)>(merge: (E, E) -> Option<E>, out: seq<E>, e: E)
    requires KeepsNeighbours(merge) && Settled(merge, out)
    ensures Settled(merge, Absorb(merge, out, e))
  {
    var n := |out|;
    if n > 1 && merge(out[n - 1], e).Some? {
      assert merge(out[n - 2], out[n - 1]).None?;
    }
  }

  lemma {:induction false} CoalescedSettled<E(!new)>(merge: (E, E) -> Option<E>, es: seq<E>)
    requires KeepsNeighbours(merge)
    ensures Settled(merge, Coalesced(merge, es))
  {
    hide KeepsNeighbours, Absorb;
    if es != [] {
      CoalescedSettled(merge, es[..|es| - 1]);
      AbsorbSettled(merge, Coalesced(merge, es[..|es| - 1]), es[|es| - 1]);
    }
  }

  lemma {:induction false} SettledFixed<E>(merge: (E, E) -> Option<E>, es: seq<E>)
    requires Settled(merge, es)
    ensures Coalesced(merge, es) == es
  {
    if es != [] {
      var n := |es| - 1;
      assert Settled(merge, es[..n]);
      SettledFixed(merge, es[..n]);
      if n > 0 { assert es[..n][n - 1] == es[n - 1]; }
    }
  }

  lemma CoalescedPush<E>(merge: (E, E) -> Option<E>, es: seq<E>, e: E)
    ensures Coalesced(merge, es + [e]) == Absorb(merge, Coalesced(merge, es), e)
  {
    hide Absorb;
    assert (es + [e])[..|es|] == es;
  }

  /** Compacting a prefix first, however long, changes nothing in the final list. */
  lemma {:induction false} CoalesceOverCut<E(!new)>(merge: (E, E) -> Option<E>, a: seq<E>, b: seq<E>)
    requires KeepsNeighbours(merge)
    ensures Coalesced(merge, Coalesced(merge, a) + b) == Coalesced(merge, a + b)
    decreases |b|
  {
    hide KeepsNeighbours, Coalesced, Absorb;
    var c := Coalesced(merge, a);
    if b == [] {
      assert c + b == c && a + b == a;
      CoalescedSettled(merge, a);
      SettledFixed(merge, c);
    } else {
      var rest, e := b[..|b| - 1], b[|b| - 1];
      CoalesceOverCut(merge, a, rest);
      assert c + b == (c + rest) + [e] && a + b == (a + rest) + [e];
      CoalescedPush(merge, c + rest, e);
      CoalescedPush(merge, a + rest, e);
    }
  }

  // --- Meaning ---------------------------------------------------------------

  /** A fold, a merge, and where the merge is sound: `fits` for an event at a state, `next` for a pair of neighbours. */
  datatype Algebra<!S, !E> = Algebra(step: (S, E) -> S, merge: (E, E) -> Option<E>, fits: (S, E) -> bool, next: (E, E) -> bool)

  /** Where two neighbours fit, their merge folds as the pair does, and fits. */
  ghost predicate MergeSound<S(!new), E(!new)>(g: Algebra<S, E>) {
    forall s, a, b :: g.merge(a, b).Some? && g.fits(s, a) && g.fits(g.step(s, a), b) && g.next(a, b) ==>
      var m := g.merge(a, b).value;
      g.step(g.step(s, a), b) == g.step(s, m) && g.fits(s, m)
  }

  /** A merged event has the neighbours of the pair it came from. */
  ghost predicate MergeLocal<S, E(!new)>(g: Algebra<S, E>) {
    forall a, b {:trigger g.merge(a, b)} :: g.merge(a, b).Some? && g.next(a, b) ==>
      var m := g.merge(a, b).value;
      (forall x :: g.next(x, a) ==> g.next(x, m)) && SameNext(g, m, b)
  }

  /** Every event fits where it is folded, and so does every pair of neighbours. */
  predicate Calm<S, E>(g: Algebra<S, E>, s: S, es: seq<E>) {
    es == [] ||
    var n := |es| - 1;
    Calm(g, s, es[..n]) && g.fits(FoldAll(g.step, s, es[..n]), es[n]) && (n > 0 ==> g.next(es[n - 1], es[n]))
  }

  lemma {:induction false} CalmPrefix<S, E>(g: Algebra<S, E>, s: S, es: seq<E>, n: nat)
    requires Calm(g, s, es) && n <= |es|
    ensures Calm(g, s, es[..n])
    decreases |es|
  {
    if n == |es| {
      assert es[..n] == es;
    } else {
      assert es[..|es| - 1][..n] == es[..n];
      CalmPrefix(g, s, es[..|es| - 1], n);
    }
  }

  ghost predicate SameNext<S, E(!new)>(g: Algebra<S, E>, a: E, b: E) {
    forall y :: g.next(a, y) == g.next(b, y)
  }

  /** `out` is a faithful compression of `raw`: same meaning from `s`, still calm, and it continues as `raw` does. */
  ghost predicate Compresses<S, E(!new)>(g: Algebra<S, E>, s: S, raw: seq<E>, out: seq<E>) {
    FoldAll(g.step, s, out) == FoldAll(g.step, s, raw)
    && Calm(g, s, out)
    && (raw == [] <==> out == [])
    && (raw != [] ==> SameNext(g, out[|out| - 1], raw[|raw| - 1]))
  }

  lemma PushCompresses<S, E(!new)>(g: Algebra<S, E>, s: S, raw: seq<E>, out: seq<E>, e: E)
    requires Compresses(g, s, raw, out) && Calm(g, s, raw + [e])
    ensures Compresses(g, s, raw + [e], out + [e])
  {
    assert (raw + [e])[..|raw|] == raw && (out + [e])[..|out|] == out;
    if raw != [] {
      assert (raw + [e])[|raw| - 1] == raw[|raw| - 1] && (out + [e])[|out| - 1] == out[|out| - 1];
    }
  }

  lemma MergeCompresses<S(!new), E(!new)>(g: Algebra<S, E>, s: S, raw: seq<E>, out: seq<E>, e: E)
    requires MergeSound(g) && MergeLocal(g)
    requires Compresses(g, s, raw, out) && Calm(g, s, raw + [e])
    requires out != [] && g.merge(out[|out| - 1], e).Some?
    ensures Compresses(g, s, raw + [e], out[..|out| - 1] + [g.merge(out[|out| - 1], e).value])
  {
    var k := |out| - 1;
    var m := g.merge(out[k], e).value;
    var merged := out[..k] + [m];
    assert (raw + [e])[..|raw|] == raw && merged[..k] == out[..k];
    assert (raw + [e])[|raw| - 1] == raw[|raw| - 1];
    assert g.next(out[k], e);
    if k > 0 { assert merged[k - 1] == out[k - 1]; }
  }

  lemma AbsorbCompresses<S(!new), E(!new)>(g: Algebra<S, E>, s: S, raw: seq<E>, out: seq<E>, e: E)
    requires MergeSound(g) && MergeLocal(g)
    requires Compresses(g, s, raw, out) && Calm(g, s, raw + [e])
    ensures Compresses(g, s, raw + [e], Absorb(g.merge, out, e))
  {
    hide MergeSound, MergeLocal, Compresses, Calm;
    if out != [] && g.merge(out[|out| - 1], e).Some? {
      MergeCompresses(g, s, raw, out, e);
    } else {
      PushCompresses(g, s, raw, out, e);
    }
  }

  /** Coalescing a calm log preserves its meaning. */
  lemma {:induction false} CoalesceSound<S(!new), E(!new)>(g: Algebra<S, E>, s: S, es: seq<E>)
    requires MergeSound(g) && MergeLocal(g) && Calm(g, s, es)
    ensures Compresses(g, s, es, Coalesced(g.merge, es))
  {
    hide MergeSound, MergeLocal, Absorb;
    if es != [] {
      var init, e := es[..|es| - 1], es[|es| - 1];
      CoalesceSound(g, s, init);
      assert init + [e] == es;
      AbsorbCompresses(g, s, init, Coalesced(g.merge, init), e);
    }
  }

  // --- Exactly when compaction preserves the meaning ------------------------------------------------

  /** After every event the compacted log so far means what the log so far means. */
  predicate FaithfulThroughout<S(==), E>(step: (S, E) -> S, merge: (E, E) -> Option<E>, s: S, es: seq<E>) {
    es != [] ==>
      && FaithfulThroughout(step, merge, s, es[..|es| - 1])
      && FoldAll(step, s, Coalesced(merge, es)) == FoldAll(step, s, es)
  }

  /** Every merge that compaction makes meets this condition, at the state the compacted log has reached before it. */
  predicate EveryMerge<S, E>(step: (S, E) -> S, merge: (E, E) -> Option<E>, exact: (S, E, E) -> bool, s: S, es: seq<E>) {
    es == [] ||
    var out, e := Coalesced(merge, es[..|es| - 1]), es[|es| - 1];
    && EveryMerge(step, merge, exact, s, es[..|es| - 1])
    && (out != [] && merge(out[|out| - 1], e).Some? ==> exact(FoldAll(step, s, out[..|out| - 1]), out[|out| - 1], e))
  }

  /** The condition is the exact one for a pair. */
  ghost predicate PairExact<S(!new), E(!new)>(step: (S, E) -> S, merge: (E, E) -> Option<E>, exact: (S, E, E) -> bool) {
    forall s, a, b :: merge(a, b).Some? ==> (exact(s, a, b) <==> step(step(s, a), b) == step(s, merge(a, b).value))
  }

  /** For every log: compaction is faithful throughout if and only if every merge it makes meets the exact condition. */
  lemma {:induction false} CoalesceExactly<S(!new), E(!new)>(
    step: (S, E) -> S, merge: (E, E) -> Option<E>, exact: (S, E, E) -> bool, s: S, es: seq<E>)
    requires PairExact(step, merge, exact)
    ensures FaithfulThroughout(step, merge, s, es) <==> EveryMerge(step, merge, exact, s, es)
  {
    if es != [] {
      var init, e := es[..|es| - 1], es[|es| - 1];
      CoalesceExactly(step, merge, exact, s, init);
      var out := Coalesced(merge, init);
      if FaithfulThroughout(step, merge, s, init) {
        FaithfulAtEnd(step, merge, s, init);
        if out != [] && merge(out[|out| - 1], e).Some? {
          FoldAllPush(step, s, out[..|out| - 1], merge(out[|out| - 1], e).value);
        } else {
          FoldAllPush(step, s, out, e);
        }
      }
    }
  }

  lemma FaithfulAtEnd<S, E>(step: (S, E) -> S, merge: (E, E) -> Option<E>, s: S, es: seq<E>)
    requires FaithfulThroughout(step, merge, s, es)
    ensures FoldAll(step, s, Coalesced(merge, es)) == FoldAll(step, s, es)
  {
  }
}
