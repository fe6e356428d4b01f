/**
 Exactly when merging two deltas of a subagent's stream preserves the fold, budget or no budget. Retention evicts the
 oldest items and spares tools in flight, so the bubble a delta streams into goes last: the merge is sound exactly when
 that bubble outlives the first delta, or the second delta's own would not be kept either.
 */
module NestedMerge {
  import opened Options
  import opened Coalesce
  import opened NestedLimits
  import opened Reset
  import opened Retention
  import opened Transcript

  // --- Evicting around a bubble ------------------------------------------------------

  lemma {:induction false} EvictableInPrefix(items: seq<Item>, bubble: Item)
    requires bubble.Assistant?
    ensures FirstEvictable(items + [bubble]) == FirstEvictable(items)
  {
    var all := items + [bubble];
    if items == [] {
      assert all == [bubble];
    } else {
      assert all[0] == items[0] && all[1..] == items[1..] + [bubble];
      EvictableInPrefix(items[1..], bubble);
    }
  }

  /** What eviction leaves of a list that ends in a bubble. */
  function EvictUnder(r: Reducer, items: seq<Item>, bubble: Item): seq<Item>
    decreases |items|
  {
    if Fits(r, items + [bubble]) then items + [bubble]
    else
      var i := FirstEvictable(items);
      if i < |items| then EvictUnder(r, items[..i] + items[i + 1..], bubble) else r.Evict(items).0
  }

  lemma {:induction false} EvictsUnder(r: Reducer, items: seq<Item>, bubble: Item)
    requires bubble.Assistant?
    ensures r.Evict(items + [bubble]) == (EvictUnder(r, items, bubble), !Fits(r, items + [bubble]))
    decreases |items|
  {
    var all := items + [bubble];
    EvictableInPrefix(items, bubble);
    var i := FirstEvictable(items);
    if !Fits(r, all) {
      if i < |items| {
        assert all[..i] + all[i + 1..] == (items[..i] + items[i + 1..]) + [bubble];
        EvictsUnder(r, items[..i] + items[i + 1..], bubble);
      } else {
        assert all[..i] + all[i + 1..] == items;
      }
    }
  }

  // --- Sizes ------------------------------------------------------------------------------

  /** Leaving an item out never makes a transcript larger. */
  ghost predicate Shrinks(r: Reducer) {
    forall a, x, b :: r.size(a + b) <= r.size(a + [x] + b)
  }

  lemma DropSize(r: Reducer, items: seq<Item>, i: nat, bubble: Item)
    requires Shrinks(r) && i < |items|
    ensures r.size(items[..i] + items[i + 1..] + [bubble]) <= r.size(items + [bubble])
  {
    var a, b := items[..i], items[i + 1..] + [bubble];
    assert items[..i] + items[i + 1..] + [bubble] == a + b && items + [bubble] == a + [items[i]] + b;
  }

  /** The bubble survives if and only if it fits beside the tools in flight; what is left then is a list over it, and
      otherwise what eviction leaves of the tools alone. */
  lemma {:induction false} Survives(r: Reducer, items: seq<Item>, bubble: Item)
    requires Shrinks(r)
    ensures Fits(r, InFlight(items) + [bubble]) ==>
            var kept := EvictUnder(r, items, bubble); kept != [] && kept[|kept| - 1] == bubble && Fits(r, kept)
    ensures !Fits(r, InFlight(items) + [bubble]) ==>
            EvictUnder(r, items, bubble) == r.Evict(InFlight(items)).0 && !Fits(r, items + [bubble])
    decreases |items|
  {
    hide Shrinks;
    InFlightRuns(items);
    var i := FirstEvictable(items);
    if i < |items| {
      InFlightDrop(items, i);
      DropSize(r, items, i, bubble);
      Survives(r, items[..i] + items[i + 1..], bubble);
    } else {
      NoneEvictable(items);
    }
  }

  lemma {:induction false} LeavesNoMore(r: Reducer, items: seq<Item>, bubble: Item)
    ensures |EvictUnder(r, items, bubble)| <= |items| + 1
    decreases |items|
  {
    if !Fits(r, items + [bubble]) {
      var i := FirstEvictable(items);
      if i < |items| { LeavesNoMore(r, items[..i] + items[i + 1..], bubble); } else { NoneEvictable(items); EvictAll(r, items); }
    }
  }

  /** Evicting for one bubble and then for another is evicting for the other, exactly when that leaves no more. */
  lemma {:induction false} EvictTwice(r: Reducer, items: seq<Item>, x: Item, y: Item)
    requires Fits(r, InFlight(items) + [x]) && Shrinks(r)
    ensures var kept, whole := EvictUnder(r, items, x), EvictUnder(r, items, y);
            && kept != []
            && (EvictUnder(r, kept[..|kept| - 1], y) == whole <==> |whole| <= |kept|)
            && (|whole| <= |kept| ==>
                (!Fits(r, items + [x]) || !Fits(r, kept[..|kept| - 1] + [y]) <==> !Fits(r, items + [y])))
    decreases |items|
  {
    hide Shrinks;
    LeavesNoMore(r, items, y);
    if Fits(r, items + [x]) {
      assert (items + [x])[..|items|] == items;
    } else {
      var i := FirstEvictable(items);
      if i < |items| {
        var less := items[..i] + items[i + 1..];
        InFlightDrop(items, i);
        EvictTwice(r, less, x, y);
        var kept := EvictUnder(r, items, x);
        LeavesNoMore(r, less, x);
        LeavesNoMore(r, kept[..|kept| - 1], y);
      } else {
        NoneEvictable(items);
        InFlightRuns(items);
      }
    }
  }

  // --- One delta ------------------------------------------------------------------------------

  /** The items under the bubble a delta streams into, and that bubble afterwards. */
  function Base(items: seq<Item>): seq<Item> {
    if OpenBubble(items) then items[..|items| - 1] else items
  }

  function Row(items: seq<Item>, e: Event): Item
    requires e.body.AssistantDelta?
  {
    var a := if OpenBubble(items) then items[|items| - 1]
             else Assistant(Bubble(e.ts, |items|), "", "", true, e.ts, e.body.entryId, None);
    if e.body.channel == Some(Thinking) then a.(thinking := a.thinking + e.body.text) else a.(text := a.text + e.body.text)
  }

  lemma DeltaRows(items: seq<Item>, e: Event)
    requires e.body.AssistantDelta?
    ensures FoldItems(items, e.ts, e.body) == Base(items) + [Row(items, e)]
    ensures Bounded(FoldItems(items, e.ts, e.body)) == Bounded(Base(items)) + [BoundItem(Row(items, e))]
  {
    assert FoldItems(items, e.ts, e.body) == Base(items) + [Row(items, e)];
  }

  function Kept(r: Reducer, items: seq<Item>, e: Event): seq<Item>
    requires e.body.AssistantDelta?
  {
    EvictUnder(r, Bounded(Base(items)), BoundItem(Row(items, e)))
  }

  predicate Cut(r: Reducer, items: seq<Item>, e: Event)
    requires e.body.AssistantDelta?
  {
    !Fits(r, Bounded(Base(items)) + [BoundItem(Row(items, e))])
  }

  function WithItems(r: Reducer, t: Nested, items: seq<Item>, truncated: bool): Nested {
    t.(items := items, truncated := truncated, retainedBytes := r.size(items), replay := Available, run := NestedRunning)
  }

  lemma DeltaFold(r: Reducer, s: State, h: string, e: Event)
    requires e.handle == Some(h) && e.body.AssistantDelta?
    ensures var t := Stream(s, h);
            r.Fold(s, e) == s.(nested := s.nested[h := WithItems(r, t, Kept(r, t.items, e), t.truncated || Cut(r, t.items, e))])
  {
    var t := Stream(s, h);
    NestedFold(r, s, e);
    DeltaRows(t.items, e);
    hide FoldItems, Bounded, BoundItem;
    EvictsUnder(r, Bounded(Base(t.items)), BoundItem(Row(t.items, e)));
  }

  /** Two folds of one stream agree exactly when its items and its truncation mark do. */
  lemma SameStream(r: Reducer, s: State, h: string, t: Nested, xs: seq<Item>, x: bool, ys: seq<Item>, y: bool)
    ensures s.(nested := s.nested[h := WithItems(r, t, xs, x)]) == s.(nested := s.nested[h := WithItems(r, t, ys, y)]) <==>
            xs == ys && x == y
  {
    var a, b := s.nested[h := WithItems(r, t, xs, x)], s.nested[h := WithItems(r, t, ys, y)];
    assert a == b ==> a[h] == b[h];
  }

  // --- The bubble survives the first delta ------------------------------------------------------

  /** A second delta on a bounded list over the bounded bubble streams into that bubble, as the merged delta does. */
  lemma SecondRow(items: seq<Item>, under: seq<Item>, a: Event, b: Event, m: Event)
    requires TryMerge(a, b) == Some(m) && a.body.AssistantDelta?
    ensures var next := under + [BoundItem(Row(items, a))];
            Base(next) == under && BoundItem(Row(next, b)) == BoundItem(Row(items, m))
  {
    var x := Row(items, a);
    var next := under + [BoundItem(x)];
    assert OpenBubble(next) && next[..|under|] == under && next[|under|] == BoundItem(x);
    var a0 := if OpenBubble(items) then items[|items| - 1]
              else Assistant(Bubble(a.ts, |items|), "", "", true, a.ts, a.body.entryId, None);
    SuffixOfSuffix(a0.text, a.body.text, b.body.text, 8192);
    SuffixOfSuffix(a0.thinking, a.body.text, b.body.text, 8192);
    assert Suffix(Suffix(a0.text, 8192), 8192) == Suffix(a0.text, 8192);
    assert Suffix(Suffix(a0.thinking, 8192), 8192) == Suffix(a0.thinking, 8192);
  }

  lemma {:induction false} KeptAreBounded(r: Reducer, items: seq<Item>, bubble: Item)
    requires Bounded(items) == items && bubble.Assistant?
    ensures var kept := EvictUnder(r, items, bubble);
            kept != [] && kept[|kept| - 1] == bubble ==>
            Bounded(kept[..|kept| - 1]) == kept[..|kept| - 1] && InFlight(kept[..|kept| - 1]) == InFlight(items)
    decreases |items|
  {
    hide Bounded;
    if Fits(r, items + [bubble]) {
      assert (items + [bubble])[..|items|] == items;
    } else {
      var i := FirstEvictable(items);
      if i < |items| {
        BoundedDrop(items, i);
        InFlightDrop(items, i);
        KeptAreBounded(r, items[..i] + items[i + 1..], bubble);
      } else {
        NoneEvictable(items);
        EvictedRun(r, items);
      }
    }
  }

  lemma {:induction false} InFlightBounded(items: seq<Item>)
    requires forall i :: 0 <= i < |items| ==> BoundItem(items[i]) == items[i]
    ensures Bounded(InFlight(items)) == InFlight(items)
  {
    if items != [] {
      InFlightBounded(items[1..]);
      var rest, all := InFlight(items[1..]), InFlight(items);
      forall i | 0 <= i < |all|
        ensures BoundItem(all[i]) == all[i]
      {
        var k := i - (|all| - |rest|);
        if k >= 0 { assert all[i] == rest[k] && Bounded(rest)[k] == rest[k]; }
      }
    }
  }

  lemma BaseBounded(items: seq<Item>)
    ensures var under := Bounded(Base(items));
            Bounded(under) == under && forall i :: 0 <= i < |under| ==> BoundItem(under[i]) == under[i]
  {
    var under := Bounded(Base(items));
    BoundIdempotent(Base(items));
    assert forall i :: 0 <= i < |under| ==> Bounded(under)[i] == under[i];
  }

  // --- The tools and the bubble --------------------------------------------------------------------

  /** The tools in flight under the bubble, as they are while it is there, and as eviction leaves them without it. */
  function Tools(items: seq<Item>): seq<Item> {
    InFlight(Bounded(Base(items)))
  }

  function ToolsAlone(r: Reducer, items: seq<Item>): seq<Item> {
    r.Evict(Tools(items)).0
  }

  /** The bubble after a delta, bounded, and whether it survives: it does if it fits beside the tools in flight. */
  function NewRow(items: seq<Item>, e: Event): Item
    requires e.body.AssistantDelta?
  {
    BoundItem(Row(items, e))
  }

  predicate Lives(r: Reducer, items: seq<Item>, e: Event)
    requires e.body.AssistantDelta?
  {
    Fits(r, Tools(items) + [NewRow(items, e)])
  }

  lemma RowIsBubble(items: seq<Item>, e: Event)
    requires e.body.AssistantDelta?
    ensures NewRow(items, e).Assistant? && NewRow(items, e).streaming
  {
  }

  /** A bubble that outlives its delta is what the next delta streams into, over bounded items and the same tools. */
  lemma LivingKept(r: Reducer, items: seq<Item>, e: Event)
    requires e.body.AssistantDelta? && Shrinks(r) && Lives(r, items, e)
    ensures var kept := Kept(r, items, e);
            && OpenBubble(kept) && kept[|kept| - 1] == NewRow(items, e)
            && Bounded(Base(kept)) == Base(kept) == kept[..|kept| - 1] && Tools(kept) == Tools(items)
  {
    var under, x := Bounded(Base(items)), NewRow(items, e);
    BaseBounded(items);
    RowIsBubble(items, e);
    hide Shrinks, Bounded, NewRow, InFlight, Row, Fits;
    Survives(r, under, x);
    KeptAreBounded(r, under, x);
  }

  lemma NextRow(r: Reducer, items: seq<Item>, a: Event, b: Event, m: Event)
    requires TryMerge(a, b) == Some(m) && a.body.AssistantDelta? && Shrinks(r) && Lives(r, items, a)
    ensures NewRow(Kept(r, items, a), b) == NewRow(items, m)
  {
    var kept := Kept(r, items, a);
    LivingKept(r, items, a);
    hide Shrinks, Bounded, InFlight, Lives, Kept, Tools;
    var rest := kept[..|kept| - 1];
    assert kept == rest + [NewRow(items, a)];
    SecondRow(items, rest, a, b, m);
  }

  /** The bubble outlives the first delta: the two deltas together do what the merged one does exactly when that one
      leaves no more items than the first. */
  lemma SurvivorMerges(r: Reducer, items: seq<Item>, a: Event, b: Event, m: Event)
    requires TryMerge(a, b) == Some(m) && a.body.AssistantDelta? && Shrinks(r) && Lives(r, items, a)
    ensures var kept := Kept(r, items, a);
            && (Kept(r, kept, b) == Kept(r, items, m) <==> |Kept(r, items, m)| <= |kept|)
            && (|Kept(r, items, m)| <= |kept| ==> (Cut(r, items, a) || Cut(r, kept, b) <==> Cut(r, items, m)))
  {
    NextRow(r, items, a, b, m);
    LivingKept(r, items, a);
    hide Shrinks, Bounded, InFlight, Row, BoundItem, Fits;
    EvictTwice(r, Bounded(Base(items)), NewRow(items, a), NewRow(items, m));
  }

  lemma ToolsAloneKept(r: Reducer, items: seq<Item>)
    ensures var alone := ToolsAlone(r, items);
            && |alone| == |Tools(items)| && Base(alone) == alone && Bounded(alone) == alone && r.Evict(alone).0 == alone
            && FirstEvictable(alone) == |alone| && (Fits(r, Tools(items)) ==> alone == Tools(items))
  {
    var under := Bounded(Base(items));
    BaseBounded(items);
    InFlightBounded(under);
    InFlightRuns(under);
    hide Bounded, BoundItem, InFlight, Placeholder;
    EvictedRun(r, Tools(items));
    AllRunning(ToolsAlone(r, items));
  }

  /** The bubble goes with its delta, and only the tools in flight are left. */
  lemma LostKept(r: Reducer, items: seq<Item>, e: Event)
    requires e.body.AssistantDelta? && Shrinks(r) && !Lives(r, items, e)
    ensures Kept(r, items, e) == ToolsAlone(r, items) && Cut(r, items, e)
  {
    hide Shrinks, Bounded, BoundItem, InFlight, Row, Fits;
    Survives(r, Bounded(Base(items)), NewRow(items, e));
  }

  /** The next delta then starts a bubble of its own over the tools, if that fits. */
  lemma OwnBubble(r: Reducer, items: seq<Item>, b: Event)
    requires b.body.AssistantDelta?
    ensures var alone := ToolsAlone(r, items);
            Kept(r, alone, b) == if Fits(r, alone + [NewRow(alone, b)]) then alone + [NewRow(alone, b)] else alone
  {
    hide Bounded, BoundItem, InFlight, Row, Placeholder;
    ToolsAloneKept(r, items);
  }

  /** What survives of a merged delta is a list over its bubble, and never shorter than the tools and the bubble. */
  lemma LivingOver(r: Reducer, items: seq<Item>, m: Event)
    requires m.body.AssistantDelta? && Shrinks(r) && Lives(r, items, m)
    ensures var whole := Kept(r, items, m);
            && |whole| > |Tools(items)| && whole[|whole| - 1] == NewRow(items, m) && Fits(r, Tools(items))
            && (|whole| == |Tools(items)| + 1 <==> whole == Tools(items) + [NewRow(items, m)])
  {
    var whole := Kept(r, items, m);
    LivingKept(r, items, m);
    assert Fits(r, Tools(items)) by {
      var t, y := Tools(items), NewRow(items, m);
      assert t + [] == t && t + [y] + [] == t + [y];
    }
    hide Shrinks, Bounded, BoundItem, Row, Fits, Kept;
    var rest := whole[..|whole| - 1];
    assert whole == rest + [NewRow(items, m)];
    InFlightShort(rest);
    assert InFlight(rest) == Tools(items);
  }

  lemma {:induction false} InFlightShort(items: seq<Item>)
    ensures |InFlight(items)| <= |items| && (|InFlight(items)| == |items| ==> InFlight(items) == items)
  {
    if items != [] { InFlightShort(items[1..]); }
  }

  // --- The theorem ---------------------------------------------------------------------------------

  /**
   The exact condition. If the bubble outlives the first delta, the merged delta must leave no more items than the first
   one did. If it does not, and does not outlive the merged delta either, the second delta's own bubble must not fit
   beside the tools. If the merged delta is so much smaller that its bubble does live, it must be the very bubble the
   second delta starts, over nothing but the tools, in a stream marked as truncated either way.
   */
  predicate MergesExactly(r: Reducer, t: Nested, a: Event, b: Event, m: Event)
    requires a.body.AssistantDelta? && b.body.AssistantDelta? && m.body.AssistantDelta?
  {
    var alone := ToolsAlone(r, t.items);
    if Lives(r, t.items, a) then |Kept(r, t.items, m)| <= |Kept(r, t.items, a)|
    else if Lives(r, t.items, m) then
      && NewRow(alone, b) == NewRow(t.items, m) && |Kept(r, t.items, m)| == |Tools(t.items)| + 1
      && (t.truncated || Cut(r, t.items, m))
    else !Fits(r, alone + [NewRow(alone, b)])
  }

  lemma LostMerges(r: Reducer, t: Nested, a: Event, b: Event, m: Event)
    requires TryMerge(a, b) == Some(m) && a.body.AssistantDelta? && Shrinks(r) && !Lives(r, t.items, a)
    ensures var kept := Kept(r, t.items, a);
            MergesExactly(r, t, a, b, m) <==>
            Kept(r, kept, b) == Kept(r, t.items, m) && (t.truncated || Cut(r, t.items, m))
    ensures Cut(r, t.items, a)
  {
    var items := t.items;
    var alone, z, y := ToolsAlone(r, items), NewRow(ToolsAlone(r, items), b), NewRow(items, m);
    LostKept(r, items, a);
    OwnBubble(r, items, b);
    ToolsAloneKept(r, items);
    assert |alone + [z]| == |alone| + 1;
    if Lives(r, items, m) {
      LivingOver(r, items, m);
      var whole := Kept(r, items, m);
      hide Shrinks, Bounded, InFlight, NewRow, Kept, Cut, Tools, ToolsAlone;
      assert alone == Tools(items);
      if whole == alone + [z] { assert whole[|whole| - 1] == z; }
    } else {
      LostKept(r, items, m);
    }
  }

  /**
   For every state and every two deltas of one subagent that merge, whatever the sizes, of which only that leaving an
   item out makes nothing larger: folding the merge is folding both if and only if the condition holds.
   */
  lemma DeltaMergeExact(r: Reducer, s: State, h: string, a: Event, b: Event, m: Event)
    requires a.handle == Some(h) && TryMerge(a, b) == Some(m) && a.body.AssistantDelta? && Shrinks(r)
    ensures r.Fold(r.Fold(s, a), b) == r.Fold(s, m) <==> MergesExactly(r, Stream(s, h), a, b, m)
  {
    hide Shrinks, BoundItem, Bounded, InFlight, Kept, Cut, NewRow, Fits, Tools;
    var t := Stream(s, h);
    var kept := Kept(r, t.items, a);
    var x, y := t.truncated || Cut(r, t.items, a) || Cut(r, kept, b), t.truncated || Cut(r, t.items, m);
    TwoDeltas(r, s, h, a, b);
    DeltaFold(r, s, h, m);
    SameStream(r, s, h, t, Kept(r, kept, b), x, Kept(r, t.items, m), y);
    if Lives(r, t.items, a) { SurvivorMerges(r, t.items, a, b, m); } else { LostMerges(r, t, a, b, m); }
  }

  lemma TwoDeltas(r: Reducer, s: State, h: string, a: Event, b: Event)
    requires a.handle == Some(h) && b.handle == Some(h) && a.body.AssistantDelta? && b.body.AssistantDelta?
    ensures var t := Stream(s, h);
            var kept := Kept(r, t.items, a);
            r.Fold(r.Fold(s, a), b) ==
              s.(nested := s.nested[h := WithItems(r, t, Kept(r, kept, b), t.truncated || Cut(r, t.items, a) || Cut(r, kept, b))])
  {
    hide BoundItem, Bounded, InFlight, Kept, Cut, NewRow, Fits;
    var t := Stream(s, h);
    var kept := Kept(r, t.items, a);
    DeltaFold(r, s, h, a);
    var s1 := r.Fold(s, a);
    DeltaFold(r, s1, h, b);
    var n := WithItems(r, t, Kept(r, kept, b), t.truncated || Cut(r, t.items, a) || Cut(r, kept, b));
    assert s1.nested[h := n] == s.nested[h := n];
  }

  /** The bytes of a JSON array of elements of these widths: two brackets, and a comma between neighbours. */
  function ArrayBytes(width: Item -> nat, items: seq<Item>): nat {
    if items == [] then 2
    else ArrayBytes(width, items[..|items| - 1]) + width(items[|items| - 1]) + if |items| > 1 then 1 else 0
  }

  lemma {:induction false} ArrayConcat(width: Item -> nat, a: seq<Item>, b: seq<Item>)
    ensures ArrayBytes(width, a + b) == ArrayBytes(width, a) + ArrayBytes(width, b) - 2 + if a != [] && b != [] then 1 else 0
  {
    if b == [] {
      assert a + b == a;
    } else {
      ArrayConcat(width, a, b[..|b| - 1]);
      assert (a + b)[..|a + b| - 1] == a + b[..|b| - 1];
    }
  }

  /** The size the source takes, the length of the JSON array of the items, is such a size. */
  lemma ArraysShrink(r: Reducer, width: Item -> nat)
    requires forall items :: r.size(items) == ArrayBytes(width, items)
    ensures Shrinks(r)
  {
    forall a: seq<Item>, x: Item, b: seq<Item>
      ensures r.size(a + b) <= r.size(a + [x] + b)
    {
      ArrayConcat(width, a, b);
      ArrayConcat(width, a + [x], b);
      ArrayConcat(width, a, [x]);
    }
  }
}
