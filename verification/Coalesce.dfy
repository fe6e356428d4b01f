/**
 Merging adjacent driver events (server/pantoken-server/src/journal.rs): the hub merges deltas before
 it journals them, and the journal merges them again when it compacts and when it builds a seed.
 The source calls the merge fold-equivalent by construction. It is, for the top-level stream; the
 exact limits for nested streams and usage events are stated here.
 */
module Coalesce {
  import opened Options
  import opened Logs
  import opened Retention
  import opened Transcript

  function EffectiveChannel(channel: Option<Channel>): Channel {
    if channel == Some(Thinking) then Thinking else Answer
  }

  /** `try_merge`. */
  function TryMerge(a: Event, b: Event): Option<Event> {
    if a.body.AssistantDelta? && b.body.AssistantDelta? then
      if a.handle != b.handle || EffectiveChannel(a.body.channel) != EffectiveChannel(b.body.channel) then None
      else Some(Event(a.ts, a.handle,
                      AssistantDelta(a.body.text + b.body.text, Some(EffectiveChannel(a.body.channel)), a.body.entryId)))
    else if a.body.UsageUpdated? && b.body.UsageUpdated? then Some(b)
    else None
  }

  predicate Thinks(b: Body) {
    b.AssistantDelta? && b.channel == Some(Thinking)
  }

  /** Two events merge if and only if both are deltas of one stream and one channel, or both report usage. Deltas become the
      first with both texts; of usage the second stays. */
  lemma TryMergeExactly(a: Event, b: Event)
    ensures TryMerge(a, b).Some? <==>
            || (a.body.AssistantDelta? && b.body.AssistantDelta? && a.handle == b.handle && Thinks(a.body) == Thinks(b.body))
            || (a.body.UsageUpdated? && b.body.UsageUpdated?)
    ensures TryMerge(a, b).Some? && a.body.UsageUpdated? ==> TryMerge(a, b).value == b
    ensures TryMerge(a, b).Some? && a.body.AssistantDelta? ==>
            var m := TryMerge(a, b).value;
            && m.ts == a.ts && m.handle == a.handle && m.body.AssistantDelta? && m.body.text == a.body.text + b.body.text
            && m.body.entryId == a.body.entryId && m.body.channel == Some(if Thinks(a.body) then Thinking else Answer)
  {
  }

  /** Merging deltas keeps their stream and channel, so it keeps the left neighbour apart. */
  lemma TryMergeKeepsNeighbours()
    ensures KeepsNeighbours(TryMerge)
  {
    forall a: Event, b: Event, c: Event | TryMerge(a, b).None? && TryMerge(b, c).Some?
      ensures TryMerge(a, TryMerge(b, c).value).None?
    {
    }
  }

  // --- Meaning ---------------------------------------------------------------

  /** The retention loop of a nested stream has nothing to do after this delta. */
  predicate WithinBudget(r: Reducer, s: State, e: Event) {
    e.handle.Some? && e.body.AssistantDelta? ==>
      Fits(r, Bounded(FoldItems(Stream(s, e.handle.value).items, e.ts, e.body)))
  }

  predicate SameUsageStream(a: Event, b: Event) {
    a.body.UsageUpdated? && b.body.UsageUpdated? ==> a.handle == b.handle
  }

  lemma SuffixDrop(w: string, k: nat, n: nat)
    requires k + n <= |w|
    ensures Suffix(w[k..], n) == Suffix(w, n)
  {
    var v := w[k..];
    assert v[|v| - n..] == w[|w| - n..];
  }

  lemma SuffixOfSuffix(x: string, a: string, b: string, n: nat)
    ensures Suffix(Suffix(x + a, n) + b, n) == Suffix(x + (a + b), n)
  {
    var w := x + a;
    assert w + b == x + (a + b);
    if |w| > n {
      var k := |w| - n;
      assert w[k..] + b == (w + b)[k..];
      hide Suffix;
      SuffixDrop(w + b, k, n);
      SuffixLong(w, n);
    }
  }

  lemma SuffixLong(w: string, n: nat)
    requires |w| > n
    ensures Suffix(w, n) == w[|w| - n..]
  {
  }

  lemma DeltaTwice(items: seq<Item>, ts: string, ts': string, a: string, b: string,
                   c: Option<Channel>, c': Option<Channel>, id: Option<string>, id': Option<string>)
    requires EffectiveChannel(c) == EffectiveChannel(c')
    ensures AppendDelta(AppendDelta(items, ts, a, c, id), ts', b, c', id')
         == AppendDelta(items, ts, a + b, Some(EffectiveChannel(c)), id)
  {
    var once := AppendDelta(items, ts, a, c, id);
    var rows := if OpenBubble(items) then items
                else items + [Assistant(Bubble(ts, |items|), "", "", true, ts, id, None)];
    var last := rows[|rows| - 1];
    assert last.thinking + a + b == last.thinking + (a + b);
    assert last.text + a + b == last.text + (a + b);
    assert OpenBubble(once);
  }

  lemma BoundedDeltaTwice(items: seq<Item>, ts: string, ts': string, a: string, b: string,
                          c: Option<Channel>, c': Option<Channel>, id: Option<string>, id': Option<string>)
    requires EffectiveChannel(c) == EffectiveChannel(c')
    ensures Bounded(AppendDelta(Bounded(AppendDelta(items, ts, a, c, id)), ts', b, c', id'))
         == Bounded(AppendDelta(items, ts, a + b, Some(EffectiveChannel(c)), id))
  {
    var once := AppendDelta(items, ts, a, c, id);
    var cut := Bounded(once);
    var n := |once| - 1;
    assert OpenBubble(once) && OpenBubble(cut);
    DeltaTwice(items, ts, ts', a, b, c, c', id, id');
    var whole := AppendDelta(once, ts', b, c', id');
    var twice := AppendDelta(cut, ts', b, c', id');
    SuffixOfSuffix(once[n].text, "", b, 8192);
    SuffixOfSuffix(once[n].thinking, "", b, 8192);
    assert once[n].text + "" == once[n].text && once[n].thinking + "" == once[n].thinking && "" + b == b;
    BoundIdempotent(once);
    forall i | 0 <= i < n ensures BoundItem(twice[i]) == BoundItem(whole[i]) {
      assert Bounded(cut)[i] == Bounded(once)[i];
    }
    assert BoundItem(twice[n]) == BoundItem(whole[n]) by {
      assert Suffix(Suffix(once[n].text, 8192), 8192) == Suffix(once[n].text, 8192);
      assert Suffix(Suffix(once[n].thinking, 8192), 8192) == Suffix(once[n].thinking, 8192);
    }
  }

  /** A nested stream after a delta or usage event, before retention. */
  function Touched(s: State, e: Event): Nested
    requires e.handle.Some?
  {
    var t := Stream(s, e.handle.value);
    t.(items := FoldItems(t.items, e.ts, e.body), replay := Available,
       run := if e.body.AssistantDelta? then NestedRunning else t.run)
  }

  lemma NestedFold(r: Reducer, s: State, e: Event)
    requires e.handle.Some? && (e.body.AssistantDelta? || e.body.UsageUpdated?)
    ensures r.Fold(s, e) == s.(nested := s.nested[e.handle.value := r.Retain(Touched(s, e))])
  {
  }

  lemma RetainWithinBudget(r: Reducer, t: Nested)
    requires Fits(r, Bounded(t.items))
    ensures r.Retain(t) == t.(items := Bounded(t.items), retainedBytes := r.size(Bounded(t.items)))
  {
  }

  lemma RetainSeesBounded(r: Reducer, t: Nested, u: Nested)
    requires Bounded(t.items) == Bounded(u.items)
    requires t.(items := [], retainedBytes := 0) == u.(items := [], retainedBytes := 0)
    ensures r.Retain(t) == r.Retain(u)
  {
  }

  /** The merge of two adjacent events means what the two events mean. */
  lemma MergePair(r: Reducer, s: State, a: Event, b: Event)
    requires TryMerge(a, b).Some?
    requires WithinBudget(r, s, a) && SameUsageStream(a, b)
    ensures r.Fold(r.Fold(s, a), b) == r.Fold(s, TryMerge(a, b).value)
    ensures WithinBudget(r, r.Fold(s, a), b) == WithinBudget(r, s, TryMerge(a, b).value)
  {
    var m := TryMerge(a, b).value;
    if a.handle.None? {
      if a.body.AssistantDelta? {
        DeltaTwice(s.items, a.ts, b.ts, a.body.text, b.body.text, a.body.channel, b.body.channel, a.body.entryId, b.body.entryId);
      }
    } else if a.body.AssistantDelta? {
      NestedDeltaMerge(r, s, a, b, m);
    } else {
      NestedUsageMerge(r, s, a, b);
    }
  }

  /** Usage events of one nested stream: the second finds the stream as the first left it, budget or no budget. */
  lemma NestedUsageMerge(r: Reducer, s: State, a: Event, b: Event)
    requires a.body.UsageUpdated? && b.body.UsageUpdated? && a.handle.Some? && a.handle == b.handle
    ensures r.Fold(r.Fold(s, a), b) == r.Fold(s, b)
  {
    var h := a.handle.value;
    var t := Stream(s, h).(replay := Available);
    UsageFold(r, s, a);
    UsageFold(r, s, b);
    UsageFold(r, r.Fold(s, a), b);
    hide FoldItems, Bounded;
    RetainIdempotent(r, t);
    assert s.nested[h := r.Retain(t)][h := r.Retain(t)] == s.nested[h := r.Retain(t)];
  }

  /** Touching the stream with delta `a` within budget and then with `b` is touching it once with the merge. */
  lemma TouchedTwice(s: State, s1: State, a: Event, b: Event, m: Event)
    requires TryMerge(a, b) == Some(m) && a.body.AssistantDelta? && a.handle.Some? && b.handle == a.handle
    requires a.handle.value in s1.nested
    requires s1.nested[a.handle.value]
          == Touched(s, a).(items := Bounded(Touched(s, a).items), retainedBytes := s1.nested[a.handle.value].retainedBytes)
    ensures Bounded(Touched(s1, b).items) == Bounded(Touched(s, m).items)
    ensures Touched(s1, b).(items := [], retainedBytes := 0) == Touched(s, m).(items := [], retainedBytes := 0)
  {
    var items := Stream(s, a.handle.value).items;
    BoundedDeltaTwice(items, a.ts, b.ts, a.body.text, b.body.text, a.body.channel, b.body.channel, a.body.entryId, b.body.entryId);
  }

  lemma NestedDeltaMerge(r: Reducer, s: State, a: Event, b: Event, m: Event)
    requires TryMerge(a, b) == Some(m) && a.handle.Some? && a.body.AssistantDelta? && WithinBudget(r, s, a)
    ensures r.Fold(r.Fold(s, a), b) == r.Fold(s, m)
    ensures WithinBudget(r, r.Fold(s, a), b) == WithinBudget(r, s, m)
  {
    var s1 := r.Fold(s, a);
    NestedFold(r, s, a);
    hide FoldItems, Bounded;
    RetainWithinBudget(r, Touched(s, a));
    TouchedTwice(s, s1, a, b, m);
    NestedFold(r, s1, b);
    NestedFold(r, s, m);
    RetainSeesBounded(r, Touched(s1, b), Touched(s, m));
    var t := r.Retain(Touched(s, m));
    assert s1.nested[a.handle.value := t] == s.nested[a.handle.value := t];
  }

  /** A usage event that tells the session nothing new: it already shows that usage, or the nested
      stream is already open, available and trimmed. */
  predicate Redundant(r: Reducer, s: State, e: Event)
    requires e.body.UsageUpdated?
  {
    match e.handle
    case None => Usage in s.meta.fields && s.meta.fields[Usage] == e.body.usage
    case Some(h) => h in s.nested && s.nested[h] == r.Retain(s.nested[h].(replay := Available))
  }

  lemma UsageFold(r: Reducer, s: State, e: Event)
    requires e.body.UsageUpdated?
    ensures e.handle.None? ==> r.Fold(s, e) == s.(meta := s.meta.(fields := s.meta.fields[Usage := e.body.usage]))
    ensures e.handle.Some? ==>
      r.Fold(s, e) == s.(nested := s.nested[e.handle.value := r.Retain(Stream(s, e.handle.value).(replay := Available))])
  {
    if e.handle.Some? {
      NestedFold(r, s, e);
      assert Touched(s, e) == Stream(s, e.handle.value).(replay := Available);
    }
  }

  lemma RedundantIsNoOp(r: Reducer, s: State, e: Event)
    requires e.body.UsageUpdated?
    ensures Redundant(r, s, e) <==> r.Fold(s, e) == s
  {
    UsageFold(r, s, e);
    if Redundant(r, s, e) {
      match e.handle
      case None => assert s.meta.fields[Usage := e.body.usage] == s.meta.fields;
      case Some(h) => assert s.nested[h := s.nested[h]] == s.nested;
    }
  }

  /** Usage events merge whatever streams they belong to, and across two streams the earlier one is lost:
      the merge is sound exactly when the earlier one told the session nothing new. */
  lemma UsageMergeExact(r: Reducer, s: State, a: Event, b: Event)
    requires a.body.UsageUpdated? && b.body.UsageUpdated? && a.handle != b.handle
    ensures TryMerge(a, b) == Some(b)
    ensures r.Fold(r.Fold(s, a), b) == r.Fold(s, b) <==> Redundant(r, s, a)
  {
    var s1 := r.Fold(s, a);
    UsageFold(r, s, a);
    UsageFold(r, s1, b);
    UsageFold(r, s, b);
    RedundantIsNoOp(r, s, a);
    if r.Fold(s1, b) == r.Fold(s, b) {
      if a.handle.None? {
        assert r.Fold(s, b).meta == s.meta;
        assert r.Fold(s1, b).meta.fields[Usage] == a.body.usage;
      } else {
        var h := a.handle.value;
        assert h in r.Fold(s1, b).nested && r.Fold(s1, b).nested[h] == s1.nested[h];
        assert h in r.Fold(s, b).nested && r.Fold(s, b).nested[h] == s.nested[h];
      }
    }
  }

  /** The session's context meter, lost by a merge with a nested stream's usage. */
  lemma UsageMergeLosesTopLevel(r: Reducer)
    ensures
      var a := Event("t", None, UsageUpdated("100 tokens"));
      var b := Event("t", Some("sub"), UsageUpdated("7 tokens"));
      TryMerge(a, b) == Some(b)
      && Usage in r.Fold(r.Fold(Initial, a), b).meta.fields
      && Usage !in r.Fold(Initial, TryMerge(a, b).value).meta.fields
  {
  }

  // --- Whole logs ------------------------------------------------------------

  /** A condition on events, none on the session's own, under which merging two neighbours preserves the fold. */
  ghost predicate Merging(r: Reducer, fits: (State, Event) -> bool) {
    && (forall s: State, e: Event :: e.handle.None? ==> fits(s, e))
    && forall s, a, b :: TryMerge(a, b).Some? && SameUsageStream(a, b) && fits(s, a) && fits(r.Fold(s, a), b) ==>
       r.Fold(r.Fold(s, a), b) == r.Fold(s, TryMerge(a, b).value) && fits(s, TryMerge(a, b).value)
  }

  /** The session fold with its merge. A log is calm for it when every event meets the condition where it is folded and
      adjacent usage events belong to one stream. */
  function Session(r: Reducer, fits: (State, Event) -> bool): Algebra<State, Event> {
    Algebra(r.Fold, TryMerge, fits, SameUsageStream)
  }

  lemma SessionMerges(r: Reducer, fits: (State, Event) -> bool)
    requires Merging(r, fits)
    ensures MergeSound(Session(r, fits)) && MergeLocal(Session(r, fits)) && KeepsNeighbours(TryMerge)
  {
    TryMergeKeepsNeighbours();
    forall a: Event, b: Event | TryMerge(a, b).Some? && SameUsageStream(a, b)
      ensures var m := TryMerge(a, b).value;
        (forall x :: SameUsageStream(x, a) ==> SameUsageStream(x, m)) && SameNext(Session(r, fits), m, b)
    {
    }
  }

  /** Every log of a session without subagents is calm. */
  lemma {:induction false} TopLevelIsCalm(r: Reducer, fits: (State, Event) -> bool, s: State, es: seq<Event>)
    requires Merging(r, fits) && forall i :: 0 <= i < |es| ==> es[i].handle.None?
    ensures Calm(Session(r, fits), s, es)
  {
    if es != [] {
      TopLevelIsCalm(r, fits, s, es[..|es| - 1]);
    }
  }

  /** Coalescing a calm log preserves the session it folds to. */
  lemma SessionCoalesce(r: Reducer, fits: (State, Event) -> bool, s: State, es: seq<Event>)
    requires Merging(r, fits) && Calm(Session(r, fits), s, es)
    ensures FoldAll(r.Fold, s, Coalesced(TryMerge, es)) == FoldAll(r.Fold, s, es)
  {
    SessionMerges(r, fits);
    CoalesceSound(Session(r, fits), s, es);
  }

  function Budget(r: Reducer): (State, Event) -> bool {
    (s: State, e: Event) => WithinBudget(r, s, e)
  }

  /** Whatever the sizes, deltas that need no eviction merge soundly. */
  lemma BudgetMerging(r: Reducer)
    ensures Merging(r, Budget(r))
  {
    forall s: State, a: Event, b: Event | TryMerge(a, b).Some? && WithinBudget(r, s, a) && SameUsageStream(a, b)
      ensures var m := TryMerge(a, b).value;
        r.Fold(r.Fold(s, a), b) == r.Fold(s, m) && WithinBudget(r, r.Fold(s, a), b) == WithinBudget(r, s, m)
    {
      hide FoldItems;
      MergePair(r, s, a, b);
    }
  }
}
