/**
 What every log keeps in the folded state, and what a sessionReset does: the one destructive event of an
 otherwise additive fold (protocol/src/state.ts).
 */
module Reset {
  import opened Options
  import opened Logs
  import opened Transcript

  // --- The fold is a product: transcript and everything else -------------------

  /** `s` with the transcript of `t`. */
  function WithTranscript(s: State, t: State): State {
    s.(items := t.items, nested := t.nested)
  }

  /** The transcript after an event depends only on the transcript before it, and the rest only on the rest. */
  lemma FoldSplits(r: Reducer, s: State, t: State, e: Event)
    ensures r.Fold(WithTranscript(s, t), e) == WithTranscript(r.Fold(s, e), r.Fold(t, e))
  {
    hide FoldMeta, FoldItems, Bounded, Stream, FirstEvictable, Placeholder;
    if e.handle.Some? { SameStreams(s, t, e.handle.value); }
    if e.body.NestedReplayStatus? { SameStreams(s, t, e.body.handle); }
  }

  lemma SameStreams(s: State, t: State, h: string)
    ensures Stream(WithTranscript(s, t), h) == Stream(t, h)
  {
  }

  lemma {:induction false} LogSplits(r: Reducer, s: State, t: State, es: seq<Event>)
    ensures FoldAll(r.Fold, WithTranscript(s, t), es) == WithTranscript(FoldAll(r.Fold, s, es), FoldAll(r.Fold, t, es))
  {
    if es != [] {
      var n := |es| - 1;
      LogSplits(r, s, t, es[..n]);
      FoldSplits(r, FoldAll(r.Fold, s, es[..n]), FoldAll(r.Fold, t, es[..n]), es[n]);
    }
  }

  lemma ResetStep(r: Reducer, s: State, ts: string)
    ensures r.Fold(s, Event(ts, None, SessionReset)) == WithTranscript(s, Initial)
  {
  }

  /** A log with a reset in it: the transcript is that of the suffix after the reset folded from nothing, and
      everything else is as if the reset had not happened. Holds from every state, for every prefix and suffix. */
  lemma ResetReplaces(r: Reducer, s: State, before: seq<Event>, ts: string, after: seq<Event>)
    ensures
      var reset := Event(ts, None, SessionReset);
      FoldAll(r.Fold, s, before + [reset] + after)
        == WithTranscript(FoldAll(r.Fold, s, before + after), FoldAll(r.Fold, Initial, after))
  {
    var reset := Event(ts, None, SessionReset);
    var mid := FoldAll(r.Fold, s, before);
    hide FoldAll, FoldMeta, FoldItems;
    FoldAllConcat(r.Fold, s, before + [reset], after);
    FoldAllConcat(r.Fold, s, before, [reset]);
    FoldAllOne(r.Fold, mid, reset);
    ResetStep(r, mid, ts);
    FoldAllConcat(r.Fold, s, before, after);
    assert FoldAll(r.Fold, s, before + [reset]) == WithTranscript(mid, Initial);
    LogSplits(r, mid, Initial, after);
  }

  // --- What every log keeps ----------------------------------------------------

  predicate Streaming(item: Item) {
    item.Assistant? && item.streaming
  }

  predicate RunningTool(item: Item) {
    item.Tool? && item.status == Running
  }

  /** No bubble streams behind a later item: only the last item can still accumulate deltas. */
  predicate OneCaret(items: seq<Item>) {
    forall i :: 0 <= i < |items| - 1 ==> !Streaming(items[i])
  }

  lemma {:induction false} StampKeepsShape(items: seq<Item>, user: bool, entryId: Option<string>)
    ensures var r := StampLast(items, user, entryId);
      forall i :: 0 <= i < |items| ==> Streaming(r[i]) == Streaming(items[i]) && RunningTool(r[i]) == RunningTool(items[i])
  {
    if !(items == [] || entryId == None || entryId == Some("")) {
      StampKeepsShape(items[..|items| - 1], user, entryId);
    }
  }

  lemma FoldItemsOneCaret(items: seq<Item>, ts: string, body: Body)
    requires OneCaret(items)
    ensures OneCaret(FoldItems(items, ts, body))
  {
    if body.RunCompleted? {
      var closed := if body.snapshot.status != Active then CloseOpen(items, ts) else items;
      var settled := InterruptTools(closed, ts);
      StampKeepsShape(settled, false, body.assistantEntryId);
      StampKeepsShape(StampLast(settled, false, body.assistantEntryId), true, body.userEntryId);
    }
  }

  lemma {:induction false} EvictOneCaret(r: Reducer, items: seq<Item>)
    requires OneCaret(items)
    ensures OneCaret(r.Evict(items).0)
    decreases |items|
  {
    var i := FirstEvictable(items);
    if r.size(items) > SUBAGENT_TRANSCRIPT_LIMIT && i < |items| {
      EvictOneCaret(r, items[..i] + items[i + 1..]);
    }
  }

  /** Pending dialogs are distinct, and the metadata has the shape a seed can carry. */
  predicate Seedable(m: Meta) {
    InitialMeta.fields.Keys <= m.fields.Keys
    && (forall i :: 0 <= i < |m.approvals| ==> m.approvals[i].Dialog?)
    && (forall i, j :: 0 <= i < j < |m.approvals| ==> m.approvals[i].requestId != m.approvals[j].requestId)
    && (forall k :: k in m.widgets ==> m.widgets[k].key == k && m.widgets[k].lines != [])
  }

  /** Moreover no status line reads as absent. */
  predicate MetaWellformed(m: Meta) {
    Seedable(m) && forall k :: k in m.statuses ==> m.statuses[k] != ""
  }

  predicate Wellformed(s: State) {
    OneCaret(s.items) && MetaWellformed(s.meta) && forall h :: h in s.nested ==> OneCaret(s.nested[h].items)
  }

  lemma {:induction false} WithoutKeeps(rs: seq<Request>, id: string)
    requires forall i :: 0 <= i < |rs| ==> rs[i].Dialog?
    requires forall i, j :: 0 <= i < j < |rs| ==> rs[i].requestId != rs[j].requestId
    ensures forall p :: p in Without(rs, id) ==> p in rs && p.requestId != id
    ensures forall i, j :: 0 <= i < j < |Without(rs, id)| ==> Without(rs, id)[i].requestId != Without(rs, id)[j].requestId
  {
    if rs != [] {
      WithoutKeeps(rs[1..], id);
      if rs[0].requestId != id {
        forall p | p in Without(rs[1..], id) ensures p.requestId != rs[0].requestId {
          var k :| 0 <= k < |rs[1..]| && rs[1..][k] == p;
          assert rs[k + 1] == p;
        }
      }
    }
  }

  lemma SnapshotSeedable(m: Meta, p: Snapshot)
    requires Seedable(m)
    ensures Seedable(ApplySnapshot(m, p))
  {
  }

  lemma ResolvedSeedable(m: Meta, id: string)
    requires Seedable(m)
    ensures Seedable(m.(approvals := Without(m.approvals, id)))
  {
    WithoutKeeps(m.approvals, id);
  }

  /** The parts a seed carries decide whether there can be one. */
  lemma SeedableParts(m: Meta, n: Meta)
    requires Seedable(m) && n.approvals == m.approvals && n.widgets == m.widgets && m.fields.Keys <= n.fields.Keys
    ensures Seedable(n)
  {
  }

  lemma OtherParts(m: Meta, body: Body)
    requires !body.SessionOpened? && !body.SessionUpdated? && !body.RunCompleted? && !body.HostUiResolved? && !body.HostUiRequest?
    ensures var n := FoldMeta(m, body); n.approvals == m.approvals && n.widgets == m.widgets
    ensures FoldMeta(m, body).fields == if body.UsageUpdated? then m.fields[Usage := body.usage] else m.fields
  {
    hide ApplyRequest, ApplySnapshot, Without, Dequeue;
  }

  lemma FoldMetaSeedable(m: Meta, body: Body)
    requires Seedable(m)
    ensures Seedable(FoldMeta(m, body))
  {
    if body.SessionOpened? || body.SessionUpdated? || body.RunCompleted? {
      hide Seedable, ApplySnapshot;
      SnapshotSeedable(m, body.snapshot);
    } else if body.HostUiResolved? {
      hide Seedable;
      ResolvedSeedable(m, body.requestId);
    } else if body.HostUiRequest? {
      hide Seedable, ApplyRequest;
      RequestSeedable(m, body.request);
    } else {
      hide Seedable, FoldMeta;
      OtherParts(m, body);
      SeedableParts(m, FoldMeta(m, body));
    }
  }

  lemma RequestSeedable(m: Meta, request: Request)
    requires Seedable(m)
    ensures Seedable(ApplyRequest(m, request))
  {
  }

  lemma FoldMetaWellformed(m: Meta, body: Body)
    requires MetaWellformed(m)
    ensures MetaWellformed(FoldMeta(m, body))
  {
    FoldMetaSeedable(m, body);
    hide Seedable;
  }

  lemma NestedOneCaret(r: Reducer, t: Nested, ts: string, body: Body)
    requires OneCaret(t.items)
    ensures OneCaret(r.Retain(t.(items := FoldItems(t.items, ts, body))).items)
  {
    FoldItemsOneCaret(t.items, ts, body);
    EvictOneCaret(r, Bounded(FoldItems(t.items, ts, body)));
  }

  lemma FoldWellformed(r: Reducer, s: State, e: Event)
    requires Wellformed(s)
    ensures Wellformed(r.Fold(s, e))
  {
    hide FoldItems, FoldMeta;
    FoldItemsOneCaret(s.items, e.ts, e.body);
    FoldMetaWellformed(s.meta, e.body);
    if e.handle.Some? {
      NestedOneCaret(r, Stream(s, e.handle.value), e.ts, e.body);
    }
  }

  /** Every log folds to a well-formed state. */
  lemma {:induction false} LogWellformed(r: Reducer, es: seq<Event>)
    ensures Wellformed(FoldAll(r.Fold, Initial, es))
  {
    if es != [] {
      LogWellformed(r, es[..|es| - 1]);
      FoldWellformed(r, FoldAll(r.Fold, Initial, es[..|es| - 1]), es[|es| - 1]);
    }
  }

  predicate EndsTurn(body: Body) {
    body.RunFailed? || body.SessionClosed? || (body.RunCompleted? && body.snapshot.status != Active)
  }

  lemma TurnEndItems(items: seq<Item>, ts: string, body: Body)
    requires OneCaret(items) && EndsTurn(body)
    ensures forall i :: 0 <= i < |FoldItems(items, ts, body)| ==>
      !RunningTool(FoldItems(items, ts, body)[i]) && !Streaming(FoldItems(items, ts, body)[i])
  {
    var closed := CloseOpen(items, if body.RunFailed? then "" else ts);
    var settled := InterruptTools(closed, ts);
    assert forall i :: 0 <= i < |settled| ==> !RunningTool(settled[i]) && !Streaming(settled[i]);
    if body.RunCompleted? {
      StampKeepsShape(settled, false, body.assistantEntryId);
      StampKeepsShape(StampLast(settled, false, body.assistantEntryId), true, body.userEntryId);
    }
  }

  /** An authoritative turn end leaves nothing running and no caret behind, after every log. */
  lemma TurnEndSettles(r: Reducer, es: seq<Event>, e: Event)
    requires e.handle.None? && EndsTurn(e.body)
    ensures var items := FoldAll(r.Fold, Initial, es + [e]).items;
      forall i :: 0 <= i < |items| ==> !RunningTool(items[i]) && !Streaming(items[i])
  {
    hide FoldAll, FoldItems, FoldMeta;
    LogWellformed(r, es);
    FoldAllPush(r.Fold, Initial, es, e);
    TurnEndItems(FoldAll(r.Fold, Initial, es).items, e.ts, e.body);
  }
}
