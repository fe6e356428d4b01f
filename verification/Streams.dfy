/**
 Compacting logs whose subagent streams run over their budget. What a log needs is that the open bubble of a stream
 always fits beside the tools in flight, and that in a stream that has been truncated no delta makes it smaller.
 */
module Streams {
  import opened Options
  import opened Logs
  import opened Coalesce
  import opened NestedMerge
  import opened Retention
  import opened Transcript

  /** Nothing that has room for the second bubble lacks room for the first. */
  ghost predicate NoSmaller(r: Reducer, x: Item, y: Item) {
    forall items :: r.size(items + [x]) <= r.size(items + [y])
  }

  /** A delta that leaves its bubble in the transcript, and in a truncated stream no smaller than it was. */
  ghost predicate StreamFits(r: Reducer, s: State, e: Event) {
    e.handle.Some? && e.body.AssistantDelta? ==>
      var t := Stream(s, e.handle.value);
      && Lives(r, t.items, e)
      && (t.truncated && OpenBubble(t.items) ==> NoSmaller(r, BoundItem(t.items[|t.items| - 1]), NewRow(t.items, e)))
  }

  ghost function Living(r: Reducer): (State, Event) -> bool {
    (s: State, e: Event) => StreamFits(r, s, e)
  }

  /** A delta within the budget of a stream that has not been truncated always fits. */
  lemma BudgetFits(r: Reducer, s: State, e: Event)
    requires Shrinks(r) && WithinBudget(r, s, e) && (e.handle.Some? ==> !Stream(s, e.handle.value).truncated)
    ensures StreamFits(r, s, e)
  {
    if e.handle.Some? && e.body.AssistantDelta? {
      var items := Stream(s, e.handle.value).items;
      DeltaRows(items, e);
      hide Shrinks, FoldItems, Bounded, BoundItem, InFlight, Row;
      Survives(r, Bounded(Base(items)), NewRow(items, e));
    }
  }

  /** A larger bubble leaves room for no more items. */
  lemma {:induction false} LargerLeavesLess(r: Reducer, items: seq<Item>, x: Item, y: Item)
    requires NoSmaller(r, x, y)
    ensures |EvictUnder(r, items, y)| <= |EvictUnder(r, items, x)|
    decreases |items|
  {
    LeavesNoMore(r, items, y);
    if !Fits(r, items + [x]) {
      assert r.size(items + [x]) <= r.size(items + [y]);
      var i := FirstEvictable(items);
      if i < |items| { LargerLeavesLess(r, items[..i] + items[i + 1..], x, y); }
    }
  }

  lemma NoSmallerTransitive(r: Reducer, x: Item, y: Item, z: Item)
    requires NoSmaller(r, x, y) && NoSmaller(r, y, z)
    ensures NoSmaller(r, x, z)
  {
    forall items: seq<Item>
      ensures r.size(items + [x]) <= r.size(items + [z])
    {
      assert r.size(items + [x]) <= r.size(items + [y]) <= r.size(items + [z]);
    }
  }

  lemma RowBounded(items: seq<Item>, e: Event)
    requires e.body.AssistantDelta?
    ensures BoundItem(NewRow(items, e)) == NewRow(items, e)
  {
    BoundIdempotent([Row(items, e)]);
    assert Bounded(Bounded([Row(items, e)]))[0] == Bounded([Row(items, e)])[0];
  }

  /** The stream after a delta that fits. */
  lemma AfterDelta(r: Reducer, s: State, h: string, a: Event)
    requires Shrinks(r) && a.handle == Some(h) && a.body.AssistantDelta? && StreamFits(r, s, a)
    ensures var t, u := Stream(s, h), Stream(r.Fold(s, a), h);
            && u.items == Kept(r, t.items, a) && OpenBubble(u.items) && u.truncated == (t.truncated || Cut(r, t.items, a))
            && BoundItem(u.items[|u.items| - 1]) == NewRow(t.items, a) && Tools(u.items) == Tools(t.items)
  {
    DeltaFold(r, s, h, a);
    LivingKept(r, Stream(s, h).items, a);
    RowBounded(Stream(s, h).items, a);
  }

  /** The merged delta leaves no more items than the first. */
  lemma MergedLeavesNoMore(r: Reducer, t: Nested, a: Event, m: Event)
    requires a.body.AssistantDelta? && m.body.AssistantDelta?
    requires Cut(r, t.items, a) ==> NoSmaller(r, NewRow(t.items, a), NewRow(t.items, m))
    ensures |Kept(r, t.items, m)| <= |Kept(r, t.items, a)|
  {
    hide FoldItems, Bounded, BoundItem, InFlight, Row;
    if Cut(r, t.items, a) {
      LargerLeavesLess(r, Bounded(Base(t.items)), NewRow(t.items, a), NewRow(t.items, m));
    } else {
      LeavesNoMore(r, Bounded(Base(t.items)), NewRow(t.items, m));
    }
  }

  lemma MergedFits(r: Reducer, s: State, h: string, a: Event, b: Event, m: Event)
    requires Shrinks(r) && a.handle == Some(h) && TryMerge(a, b) == Some(m) && a.body.AssistantDelta?
    requires StreamFits(r, s, a) && StreamFits(r, r.Fold(s, a), b)
    ensures StreamFits(r, s, m)
    ensures var items := Stream(s, h).items; Cut(r, items, a) ==> NoSmaller(r, NewRow(items, a), NewRow(items, m))
  {
    var t := Stream(s, h);
    var x, y := NewRow(t.items, a), NewRow(t.items, m);
    AfterDelta(r, s, h, a);
    NextRow(r, t.items, a, b, m);
    hide Shrinks, FoldItems, Bounded, BoundItem, InFlight, Row, Fits, NewRow, Cut, Kept, NoSmaller;
    if t.truncated && OpenBubble(t.items) { NoSmallerTransitive(r, BoundItem(t.items[|t.items| - 1]), x, y); }
  }

  lemma DeltasMerge(r: Reducer, s: State, h: string, a: Event, b: Event, m: Event)
    requires Shrinks(r) && a.handle == Some(h) && TryMerge(a, b) == Some(m) && a.body.AssistantDelta?
    requires StreamFits(r, s, a) && StreamFits(r, r.Fold(s, a), b)
    ensures r.Fold(r.Fold(s, a), b) == r.Fold(s, m) && StreamFits(r, s, m)
  {
    MergedFits(r, s, h, a, b, m);
    hide Shrinks, FoldItems, Bounded, BoundItem, InFlight, Row, Fits, NewRow, Cut, Kept, NoSmaller;
    MergedLeavesNoMore(r, Stream(s, h), a, m);
    DeltaMergeExact(r, s, h, a, b, m);
  }

  /** Sizes being such that leaving an item out makes nothing larger, deltas that fit merge soundly. */
  lemma LivingMerging(r: Reducer)
    requires Shrinks(r)
    ensures Merging(r, Living(r))
  {
    forall s: State, a: Event, b: Event
      | TryMerge(a, b).Some? && SameUsageStream(a, b) && StreamFits(r, s, a) && StreamFits(r, r.Fold(s, a), b)
      ensures var m := TryMerge(a, b).value; r.Fold(r.Fold(s, a), b) == r.Fold(s, m) && StreamFits(r, s, m)
    {
      hide Shrinks, StreamFits, FoldItems;
      if a.body.AssistantDelta? && a.handle.Some? {
        DeltasMerge(r, s, a.handle.value, a, b, TryMerge(a, b).value);
      } else {
        MergePair(r, s, a, b);
        OthersFit(r, s, TryMerge(a, b).value);
      }
    }
  }

  lemma OthersFit(r: Reducer, s: State, e: Event)
    requires e.handle.None? || !e.body.AssistantDelta?
    ensures StreamFits(r, s, e)
  {
  }

  /** Compacting a log preserves the session it folds to, however far its streams run over their budgets. */
  lemma StreamCoalesce(r: Reducer, s: State, es: seq<Event>)
    requires Shrinks(r) && Calm(Session(r, Living(r)), s, es)
    ensures FoldAll(r.Fold, s, Coalesced(TryMerge, es)) == FoldAll(r.Fold, s, es)
  {
    LivingMerging(r);
    SessionCoalesce(r, Living(r), s, es);
  }

  // --- Exactly when compaction preserves the session ---------------------------------------------------

  /** The exact condition for two events that merge: on what fits beside the tools in flight for deltas of a subagent, that
      the earlier usage told nothing new for usage of two streams, and none for any other pair. */
  predicate Exact(r: Reducer, s: State, a: Event, b: Event) {
    TryMerge(a, b).Some? ==>
      if a.body.AssistantDelta? then a.handle.Some? ==> MergesExactly(r, Stream(s, a.handle.value), a, b, TryMerge(a, b).value)
      else a.handle != b.handle ==> Redundant(r, s, a)
  }

  lemma ExactPair(r: Reducer, s: State, a: Event, b: Event)
    requires Shrinks(r) && TryMerge(a, b).Some?
    ensures Exact(r, s, a, b) <==> r.Fold(r.Fold(s, a), b) == r.Fold(s, TryMerge(a, b).value)
  {
    hide Shrinks, FoldItems, MergesExactly;
    if a.body.AssistantDelta? && a.handle.Some? {
      DeltaMergeExact(r, s, a.handle.value, a, b, TryMerge(a, b).value);
    } else if a.body.UsageUpdated? && a.handle != b.handle {
      UsageMergeExact(r, s, a, b);
    } else {
      MergePair(r, s, a, b);
    }
  }

  /** For every log: after each of its events the compacted log folds to the session of the log, if and only if every merge
      that compaction makes meets the exact condition. */
  lemma CompactionExact(r: Reducer, s: State, es: seq<Event>)
    requires Shrinks(r)
    ensures FaithfulThroughout(r.Fold, TryMerge, s, es) <==> EveryMerge(r.Fold, TryMerge, (t, a, b) => Exact(r, t, a, b), s, es)
  {
    hide Shrinks, Exact, FoldItems;
    forall t: State, a: Event, b: Event | TryMerge(a, b).Some?
      ensures Exact(r, t, a, b) <==> r.Fold(r.Fold(t, a), b) == r.Fold(t, TryMerge(a, b).value)
    {
      ExactPair(r, t, a, b);
    }
    CoalesceExactly(r.Fold, TryMerge, (t, a, b) => Exact(r, t, a, b), s, es);
  }
}
