/**
 The loops of the reducer as they run in place (protocol/src/state.ts:235-311, 659-665), each against the function the
 rest of the model uses, and what bounding a nested transcript keeps.
 */
module Retention {
  import opened Logs
  import opened Options
  import opened Reset
  import opened Transcript

  // --- Loops -------------------------------------------------------------------------------

  /** `interruptRunningTools`. */
  method InterruptRunningTools(items: array<Item>, finishedAt: string)
    modifies items
    ensures items[..] == InterruptTools(old(items[..]), finishedAt)
  {
    for i := 0 to items.Length
      invariant forall k :: 0 <= k < i ==> items[k] == Settle(old(items[k]), finishedAt)
      invariant forall k :: i <= k < items.Length ==> items[k] == old(items[k])
    {
      if items[i].Tool? && items[i].status == Running {
        items[i] := items[i].(status := Interrupted, finishedAt := Some(finishedAt));
      }
    }
  }

  predicate Stampable(it: Item, user: bool) {
    (user && it.User?) || (!user && it.Assistant?)
  }

  /** Stamping writes to the last item of the kind, if any, and to nothing else. */
  lemma {:induction false} StampsLast(items: seq<Item>, user: bool, entryId: string, i: nat)
    requires entryId != "" && i < |items| && Stampable(items[i], user)
    requires forall k :: i < k < |items| ==> !Stampable(items[k], user)
    ensures StampLast(items, user, Some(entryId)) == items[i := items[i].(entryId := Some(entryId))]
  {
    var n := |items| - 1;
    if i < n {
      StampsLast(items[..n], user, entryId, i);
      assert items == items[..n] + [items[n]];
    }
  }

  lemma {:induction false} StampsNone(items: seq<Item>, user: bool, entryId: string)
    requires forall k :: 0 <= k < |items| ==> !Stampable(items[k], user)
    ensures StampLast(items, user, Some(entryId)) == items
  {
    if items != [] { StampsNone(items[..|items| - 1], user, entryId); }
  }

  /** `stampLastEntryId`. */
  method StampLastEntryId(items: array<Item>, user: bool, entryId: string)
    requires entryId != ""
    modifies items
    ensures items[..] == StampLast(old(items[..]), user, Some(entryId))
  {
    var i := items.Length;
    while i > 0
      invariant 0 <= i <= items.Length && items[..] == old(items[..])
      invariant forall k :: i <= k < items.Length ==> !Stampable(items[k], user)
    {
      i := i - 1;
      if Stampable(items[i], user) {
        StampsLast(items[..], user, entryId, i);
        items[i] := items[i].(entryId := Some(entryId));
        return;
      }
    }
    StampsNone(items[..], user, entryId);
  }

  /** The eviction loop of `retainNested`, on fields already bounded. */
  method EvictToBudget(r: Reducer, bounded: seq<Item>) returns (items: seq<Item>, truncated: bool)
    ensures (items, truncated) == r.Evict(bounded)
  {
    items, truncated := bounded, false;
    while r.size(items) > SUBAGENT_TRANSCRIPT_LIMIT
      invariant r.Evict(bounded) == (r.Evict(items).0, truncated || r.Evict(items).1)
      decreases |items|
    {
      var index := FirstEvictable(items);
      if index < |items| {
        items := items[..index] + items[index + 1..];
        truncated := true;
      } else {
        items := seq(|items|, k requires 0 <= k < |items| => Placeholder(items[k]));
        truncated := true;
        break;
      }
    }
  }

  /** `foldAll`. */
  method FoldEvents(r: Reducer, events: seq<Event>, start: State) returns (state: State)
    ensures state == FoldAll(r.Fold, start, events)
  {
    state := start;
    for i := 0 to |events|
      invariant state == FoldAll(r.Fold, start, events[..i])
    {
      assert events[..i + 1][..i] == events[..i];
      state := r.Fold(state, events[i]);
    }
    assert events[..|events|] == events;
  }

  // --- What bounding keeps ----------------------------------------------------------------------

  /** The tools in flight, in order. */
  function InFlight(items: seq<Item>): seq<Item> {
    if items == [] then []
    else (if RunningTool(items[0]) then [items[0]] else []) + InFlight(items[1..])
  }

  lemma {:induction false} InFlightRuns(items: seq<Item>)
    ensures forall i :: 0 <= i < |InFlight(items)| ==> RunningTool(InFlight(items)[i])
    ensures (forall i :: 0 <= i < |items| ==> RunningTool(items[i])) ==> InFlight(items) == items
  {
    if items != [] { InFlightRuns(items[1..]); }
  }

  lemma {:induction false} InFlightDrop(items: seq<Item>, i: nat)
    requires i < |items| && !RunningTool(items[i])
    ensures InFlight(items[..i] + items[i + 1..]) == InFlight(items)
  {
    if i == 0 {
      assert items[..0] + items[1..] == items[1..];
    } else {
      InFlightDrop(items[1..], i - 1);
      var cut := items[..i] + items[i + 1..];
      assert cut[0] == items[0] && cut[1..] == items[1..][..i - 1] + items[1..][i..];
    }
  }

  function CardIds(items: seq<Item>): seq<ItemId> {
    seq(|items|, i requires 0 <= i < |items| => items[i].id)
  }

  lemma {:induction false} InFlightSame(a: seq<Item>, b: seq<Item>)
    requires |a| == |b| && forall i :: 0 <= i < |a| ==> a[i].id == b[i].id && RunningTool(a[i]) == RunningTool(b[i])
    ensures CardIds(InFlight(a)) == CardIds(InFlight(b))
  {
    if a != [] {
      InFlightSame(a[1..], b[1..]);
      if RunningTool(a[0]) {
        assert CardIds(InFlight(a)) == [a[0].id] + CardIds(InFlight(a[1..]));
        assert CardIds(InFlight(b)) == [b[0].id] + CardIds(InFlight(b[1..]));
      } else {
        assert InFlight(a) == InFlight(a[1..]) && InFlight(b) == InFlight(b[1..]);
      }
    }
  }

  lemma {:induction false} NoneEvictable(items: seq<Item>)
    requires FirstEvictable(items) == |items|
    ensures forall i :: 0 <= i < |items| ==> RunningTool(items[i])
  {
    if items != [] { NoneEvictable(items[1..]); }
  }

  lemma {:induction false} EvictKeeps(r: Reducer, items: seq<Item>)
    ensures var kept := r.Evict(items).0;
            && CardIds(InFlight(kept)) == CardIds(InFlight(items))
            && (r.size(kept) <= SUBAGENT_TRANSCRIPT_LIMIT || forall i :: 0 <= i < |kept| ==> RunningTool(kept[i]))
    decreases |items|
  {
    if r.size(items) > SUBAGENT_TRANSCRIPT_LIMIT {
      var i := FirstEvictable(items);
      if i < |items| {
        InFlightDrop(items, i);
        EvictKeeps(r, items[..i] + items[i + 1..]);
      } else {
        NoneEvictable(items);
        InFlightSame(items, r.Evict(items).0);
      }
    }
  }

  /** Without its m oldest items, tools in flight not counted. */
  function Sparing(items: seq<Item>, m: nat): seq<Item> {
    if m == 0 || items == [] then items
    else if RunningTool(items[0]) then [items[0]] + Sparing(items[1..], m)
    else Sparing(items[1..], m - 1)
  }

  lemma {:induction false} SparingOne(items: seq<Item>, m: nat)
    requires FirstEvictable(items) < |items|
    ensures var i := FirstEvictable(items); Sparing(items, m + 1) == Sparing(items[..i] + items[i + 1..], m)
  {
    var i := FirstEvictable(items);
    var cut := items[..i] + items[i + 1..];
    if i == 0 {
      assert cut == items[1..];
    } else {
      SparingOne(items[1..], m);
      assert FirstEvictable(items[1..]) == i - 1;
      assert cut[0] == items[0] && cut[1..] == items[1..][..i - 1] + items[1..][i..];
      if m == 0 { SparingNone(items[1..], i - 1); }
    }
  }

  lemma SparingNone(items: seq<Item>, i: nat)
    requires i < |items|
    ensures Sparing(items[..i] + items[i + 1..], 0) == items[..i] + items[i + 1..]
  {
  }

  /** Eviction takes the oldest items that are not tools in flight, one by one, and stops as soon as the rest fits. When only
      tools in flight are left and they do not fit, each becomes a placeholder. */
  lemma {:induction false} EvictsExactly(r: Reducer, items: seq<Item>) returns (m: nat)
    ensures var left := Sparing(items, m);
            && (forall k :: 0 <= k < m ==> r.size(Sparing(items, k)) > 65536)
            && (if r.size(left) <= 65536 then r.Evict(items).0 == left
                else (forall i :: 0 <= i < |left| ==> RunningTool(left[i]))
                     && r.Evict(items).0 == seq(|left|, i requires 0 <= i < |left| => Placeholder(left[i])))
    decreases |items|
  {
    var i := FirstEvictable(items);
    if r.size(items) <= 65536 {
      m := 0;
    } else if i < |items| {
      var cut := items[..i] + items[i + 1..];
      var n := EvictsExactly(r, cut);
      m := n + 1;
      SparingOne(items, n);
      forall k | 0 <= k < m
        ensures r.size(Sparing(items, k)) > 65536
      {
        if k > 0 { SparingOne(items, k - 1); }
      }
    } else {
      m := 0;
      NoneEvictable(items);
    }
  }

  /**
   However large a nested transcript grows, bounding it keeps the card of every tool in flight, in order, and ends
   within the budget unless nothing but tools in flight is left; `truncated` says whether anything was cut to fit.
   */
  lemma RetainKeepsInFlight(r: Reducer, t: Nested)
    ensures var kept := r.Retain(t);
            && CardIds(InFlight(kept.items)) == CardIds(InFlight(t.items)) && kept.retainedBytes == r.size(kept.items)
            && (kept.retainedBytes <= SUBAGENT_TRANSCRIPT_LIMIT || forall i :: 0 <= i < |kept.items| ==> RunningTool(kept.items[i]))
            && (kept.truncated <==> t.truncated || r.size(Bounded(t.items)) > SUBAGENT_TRANSCRIPT_LIMIT)
  {
    InFlightSame(t.items, Bounded(t.items));
    EvictKeeps(r, Bounded(t.items));
  }

  // --- Bounding once is enough ------------------------------------------------------------------

  predicate Fits(r: Reducer, items: seq<Item>) {
    r.size(items) <= SUBAGENT_TRANSCRIPT_LIMIT
  }

  lemma BoundIdempotent(items: seq<Item>)
    ensures Bounded(Bounded(items)) == Bounded(items)
  {
    forall i | 0 <= i < |items| ensures BoundItem(BoundItem(items[i])) == BoundItem(items[i]) {
      var item := BoundItem(items[i]);
      if item.Tool? && item.images.Some? {
        assert SuffixAll(item.images.value, 16384) == item.images.value;
      }
    }
  }

  lemma PlaceholderBounded(it: Item)
    requires RunningTool(it) && BoundItem(it) == it
    ensures BoundItem(Placeholder(it)) == Placeholder(it)
  {
    var p := Placeholder(it);
    if p.images.Some? { assert SuffixAll(p.images.value, 16384) == p.images.value; }
  }

  lemma PlaceholderAgain(it: Item)
    ensures Placeholder(Placeholder(it)) == Placeholder(it)
    ensures RunningTool(Placeholder(it)) == RunningTool(it)
  {
  }

  function Placeholders(tools: seq<Item>): seq<Item> {
    seq(|tools|, i requires 0 <= i < |tools| => Placeholder(tools[i]))
  }

  lemma {:induction false} AllRunning(tools: seq<Item>)
    requires forall i :: 0 <= i < |tools| ==> RunningTool(tools[i])
    ensures FirstEvictable(tools) == |tools|
  {
    if tools != [] { AllRunning(tools[1..]); }
  }

  lemma EvictAll(r: Reducer, tools: seq<Item>)
    requires forall i :: 0 <= i < |tools| ==> RunningTool(tools[i])
    ensures r.Evict(tools) == if Fits(r, tools) then (tools, false) else (Placeholders(tools), true)
  {
    hide Placeholder;
    AllRunning(tools);
  }

  lemma PlaceholdersKeep(tools: seq<Item>)
    requires forall i :: 0 <= i < |tools| ==> RunningTool(tools[i])
    ensures forall i :: 0 <= i < |tools| ==> RunningTool(Placeholders(tools)[i])
    ensures Placeholders(Placeholders(tools)) == Placeholders(tools)
    ensures Bounded(tools) == tools ==> Bounded(Placeholders(tools)) == Placeholders(tools)
  {
    hide Placeholder, BoundItem;
    forall i | 0 <= i < |tools|
      ensures RunningTool(Placeholders(tools)[i]) && Placeholder(Placeholder(tools[i])) == Placeholder(tools[i])
      ensures Bounded(tools) == tools ==> BoundItem(Placeholder(tools[i])) == Placeholder(tools[i])
    {
      PlaceholderAgain(tools[i]);
      if Bounded(tools) == tools {
        assert Bounded(tools)[i] == tools[i];
        PlaceholderBounded(tools[i]);
      }
    }
  }

  /** Of tools in flight eviction keeps all, as they are or cut to placeholders; they stay bounded, and it is done at once. */
  lemma EvictedRun(r: Reducer, tools: seq<Item>)
    requires forall i :: 0 <= i < |tools| ==> RunningTool(tools[i])
    ensures var kept := r.Evict(tools).0; |kept| == |tools| && forall i :: 0 <= i < |kept| ==> RunningTool(kept[i])
    ensures Bounded(tools) == tools ==> Bounded(r.Evict(tools).0) == r.Evict(tools).0
    ensures r.Evict(r.Evict(tools).0).0 == r.Evict(tools).0
  {
    PlaceholdersKeep(tools);
    EvictAll(r, tools);
    hide Placeholder, BoundItem, Bounded, Fits;
    EvictAll(r, r.Evict(tools).0);
  }

  lemma BoundedDrop(items: seq<Item>, i: nat)
    requires Bounded(items) == items && i < |items|
    ensures Bounded(items[..i] + items[i + 1..]) == items[..i] + items[i + 1..]
  {
    hide BoundItem;
    var less := items[..i] + items[i + 1..];
    assert forall k :: 0 <= k < |items| ==> Bounded(items)[k] == items[k];
    assert forall k :: 0 <= k < |less| ==> less[k] == if k < i then items[k] else items[k + 1];
  }

  /** What eviction leaves is bounded and final: evicting again changes nothing, and cuts only if it has cut before. */
  lemma {:induction false} EvictAgain(r: Reducer, items: seq<Item>)
    requires Bounded(items) == items
    ensures var kept := r.Evict(items).0;
            Bounded(kept) == kept && r.Evict(kept).0 == kept && (r.Evict(kept).1 ==> r.Evict(items).1)
    decreases |items|
  {
    hide Bounded, Placeholder;
    if !Fits(r, items) {
      var i := FirstEvictable(items);
      if i < |items| {
        BoundedDrop(items, i);
        EvictAgain(r, items[..i] + items[i + 1..]);
      } else {
        NoneEvictable(items);
        EvictedRun(r, items);
      }
    }
  }

  /** Bounding a nested transcript again changes nothing. */
  lemma RetainIdempotent(r: Reducer, t: Nested)
    ensures r.Retain(r.Retain(t)) == r.Retain(t)
  {
    BoundIdempotent(t.items);
    hide Bounded;
    EvictAgain(r, Bounded(t.items));
  }
}
