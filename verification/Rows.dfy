/**
 What a transcript shows, said of the log alone (protocol/src/state.ts:323-656): which events make a row, and what every
 field of the row is, from the event that made it and the last or first later event that bears on it.
 */
module Rows {
  import opened Options
  import opened Logs
  import opened Reset
  import opened Retention
  import opened Transcript

  // --- Which events make a row -----------------------------------------------------------

  predicate SnapshotBody(b: Body) {
    b.SessionOpened? || b.SessionUpdated? || b.RunCompleted?
  }

  /** The event says that the agent no longer runs. */
  predicate Rests(b: Body) {
    b.SessionClosed? || (SnapshotBody(b) && b.snapshot.status != Active)
  }

  predicate IsNotice(b: Body) {
    b.HostUiRequest? && b.request.Notify?
  }

  /** A row of its own, whatever came before. */
  predicate OwnRow(b: Body) {
    b.UserMessage? || b.CustomMessage? || b.QueuedMessageStarted? || b.ToolStarted? || b.RunFailed? || IsNotice(b) || b.CompatibilityIssue?
  }

  /** The event ends the bubble that is being streamed. */
  predicate EndsBubble(b: Body) {
    OwnRow(b) || Rests(b)
  }

  /** A bubble is being streamed: since the last delta nothing has ended it. */
  predicate Open(es: seq<Event>) {
    es != [] &&
    var b := es[|es| - 1].body;
    b.AssistantDelta? || (!EndsBubble(b) && Open(es[..|es| - 1]))
  }

  predicate Makes(es: seq<Event>, i: nat)
    requires i < |es|
  {
    OwnRow(es[i].body) || (es[i].body.AssistantDelta? && !Open(es[..i]))
  }

  /** The events that make the rows, in order. */
  function Makers(es: seq<Event>): (ms: seq<nat>)
    ensures forall k :: 0 <= k < |ms| ==> ms[k] < |es|
  {
    if es == [] then [] else Makers(es[..|es| - 1]) + if Makes(es, |es| - 1) then [|es| - 1] else []
  }

  // --- Prompts and bubbles -----------------------------------------------------------------

  /** The event makes a prompt, or a bubble. */
  predicate MakesKind(es: seq<Event>, i: nat, user: bool)
    requires i < |es|
  {
    if user then es[i].body.UserMessage? || es[i].body.QueuedMessageStarted? else es[i].body.AssistantDelta? && Makes(es, i)
  }

  predicate LastOfKind(es: seq<Event>, i: nat, user: bool) {
    forall j :: i < j < |es| ==> !MakesKind(es, j, user)
  }

  /** The branch handle that the end of a run gives to the last prompt, or to the last bubble. */
  function Stamp(b: Body, user: bool): Option<string> {
    if b.RunCompleted? then
      var id := if user then b.userEntryId else b.assistantEntryId;
      if id == Some("") then None else id
    else None
  }

  /** The last handle given to the row, or the one it came with. */
  function EntryId(es: seq<Event>, i: nat, user: bool, own: Option<string>): Option<string> {
    if |es| <= i + 1 then own
    else
      var init, id := es[..|es| - 1], Stamp(es[|es| - 1].body, user);
      if id.Some? && LastOfKind(init, i, user) then id else EntryId(init, i, user, own)
  }

  /** Nothing has ended the bubble that event i opened. */
  predicate Streams(es: seq<Event>, i: nat) {
    forall j :: i < j < |es| ==> !EndsBubble(es[j].body)
  }

  predicate Speaks(b: Body, thinking: bool) {
    b.AssistantDelta? && (thinking <==> b.channel == Some(Thinking))
  }

  /** The deltas of one channel, from the one that opened the bubble to the one before its end. */
  function Said(es: seq<Event>, i: nat, thinking: bool): string {
    if |es| <= i then ""
    else
      var b := es[|es| - 1].body;
      Said(es[..|es| - 1], i, thinking) + if Speaks(b, thinking) && Streams(es, i) then b.text else ""
  }

  /** When the event that ended the bubble ended the turn with it. */
  function CompletedAt(es: seq<Event>, i: nat): Option<string> {
    if |es| <= i + 1 then None
    else
      var init, e := es[..|es| - 1], es[|es| - 1];
      if Streams(init, i) && Rests(e.body) && e.ts != "" then Some(e.ts) else CompletedAt(init, i)
  }

  /** The bubble opened by event i is numbered by the rows before it. */
  function BubbleRow(es: seq<Event>, i: nat): Item
    requires i < |es| && es[i].body.AssistantDelta?
  {
    Assistant(Bubble(es[i].ts, |Makers(es[..i])|), Said(es, i, false), Said(es, i, true), Streams(es, i), es[i].ts,
              EntryId(es, i, false, es[i].body.entryId), CompletedAt(es, i))
  }

  // --- Tool cards -----------------------------------------------------------------------------

  predicate Starts(b: Body, callId: string) {
    b.ToolStarted? && b.callId == callId
  }

  /** The first card of its call: later cards of the same call are never updated or finished. */
  predicate FirstCard(es: seq<Event>, i: nat)
    requires i < |es| && es[i].body.ToolStarted?
  {
    forall j :: 0 <= j < i ==> !Starts(es[j].body, es[i].body.callId)
  }

  predicate Finishes(es: seq<Event>, i: nat, j: nat)
    requires i < |es| && j < |es| && es[i].body.ToolStarted?
  {
    FirstCard(es, i) && es[j].body.ToolFinished? && es[j].body.callId == es[i].body.callId
  }

  predicate Updates(es: seq<Event>, i: nat, j: nat)
    requires i < |es| && j < |es| && es[i].body.ToolStarted?
  {
    FirstCard(es, i) && es[j].body.ToolUpdated? && es[j].body.callId == es[i].body.callId
  }

  /** The last finish of the card among the first n events. */
  function LastFinish(es: seq<Event>, i: nat, n: nat): (r: Option<nat>)
    requires i < n <= |es| && es[i].body.ToolStarted?
    ensures r.Some? ==> i < r.value < n && Finishes(es, i, r.value)
  {
    if n == i + 1 then None else if Finishes(es, i, n - 1) then Some(n - 1) else LastFinish(es, i, n - 1)
  }

  function LastImages(es: seq<Event>, i: nat, n: nat): Option<seq<string>>
    requires i < n <= |es| && es[i].body.ToolStarted?
  {
    if n == i + 1 then None
    else if Finishes(es, i, n - 1) && es[n - 1].body.images.Some? then es[n - 1].body.images
    else LastImages(es, i, n - 1)
  }

  function LastNote(es: seq<Event>, i: nat, n: nat): Option<string>
    requires i < n <= |es| && es[i].body.ToolStarted?
  {
    if n == i + 1 then None
    else if Updates(es, i, n - 1) && es[n - 1].body.note.Some? then es[n - 1].body.note
    else LastNote(es, i, n - 1)
  }

  function LastProgress(es: seq<Event>, i: nat, n: nat): Option<real>
    requires i < n <= |es| && es[i].body.ToolStarted?
  {
    if n == i + 1 then None
    else if Updates(es, i, n - 1) && es[n - 1].body.progress.Some? then es[n - 1].body.progress
    else LastProgress(es, i, n - 1)
  }

  predicate EndsRun(b: Body) {
    b.RunCompleted? || b.RunFailed? || b.SessionClosed?
  }

  /** When the first run after the card's start ended. */
  function FirstEnd(es: seq<Event>, i: nat, n: nat): Option<string>
    requires i < n <= |es|
  {
    if n == i + 1 then None
    else
      var before := FirstEnd(es, i, n - 1);
      if before.Some? then before else if EndsRun(es[n - 1].body) then Some(es[n - 1].ts) else None
  }

  function Outcome(b: Body): ToolStatus
    requires b.ToolFinished?
  {
    if b.interrupted then Interrupted else if b.success then Ok else Error
  }

  /** A card shows its last finish; without one it is interrupted by the first end of a run, and runs until then. */
  function Card(es: seq<Event>, i: nat): Item
    requires i < |es| && es[i].body.ToolStarted?
  {
    var b, n := es[i].body, |es|;
    var f, end := LastFinish(es, i, n), FirstEnd(es, i, n);
    Tool(Given(b.callId), b.toolName, b.input,
         if f.Some? then es[f.value].body.output else None, LastImages(es, i, n),
         LastNote(es, i, n), LastProgress(es, i, n),
         if f.Some? then Outcome(es[f.value].body) else if end.Some? then Interrupted else Running,
         es[i].ts, if f.Some? then Some(es[f.value].ts) else end)
  }

  // --- The transcript -------------------------------------------------------------------------

  /** The row that event i made, as the whole log leaves it. */
  function Row(es: seq<Event>, i: nat): Item
    requires i < |es| && Makes(es, i)
  {
    var e := es[i];
    match e.body
    case UserMessage(id, text, extra, entryId) => User(Given(id), text, extra, e.ts, EntryId(es, i, true, entryId))
    case QueuedMessageStarted(q) => User(Given(q.id), q.text, q.extra, q.createdAt, EntryId(es, i, true, None))
    case CustomMessage(id, customType, text, display, boundary) => Inject(Given(id), customType, text, display, boundary, e.ts)
    case AssistantDelta(_, _, _) => BubbleRow(es, i)
    case ToolStarted(_, _, _) => Card(es, i)
    case RunFailed(error) => Notice(ErrAt(e.ts), Severe, error)
    case HostUiRequest(q) => Notice(Given(q.requestId), if q.level.Some? then q.level.value else Info, q.message)
    case CompatibilityIssue(text) => Notice(CompatAt(e.ts), Warning, text)
  }

  lemma {:induction false} MakersMake(es: seq<Event>)
    ensures forall k :: 0 <= k < |Makers(es)| ==> Makes(es, Makers(es)[k])
    ensures forall k, l :: 0 <= k < l < |Makers(es)| ==> Makers(es)[k] < Makers(es)[l]
    ensures forall i :: 0 <= i < |es| && Makes(es, i) ==> i in Makers(es)
  {
    if es != [] {
      var init := es[..|es| - 1];
      MakersMake(init);
      assert forall i :: 0 <= i < |init| ==> init[i] == es[i] && init[..i] == es[..i];
      hide Makes;
      forall i | 0 <= i < |init|
        ensures Makes(es, i) == Makes(init, i)
      {
        MakesBefore(es, i);
      }
    }
  }

  lemma MakesBefore(es: seq<Event>, i: nat)
    requires i < |es| - 1
    ensures Makes(es, i) == Makes(es[..|es| - 1], i)
  {
    assert es[..|es| - 1][..i] == es[..i];
  }

  function RowsOf(es: seq<Event>): seq<Item> {
    MakersMake(es);
    var ms := Makers(es);
    seq(|ms|, k requires 0 <= k < |ms| && ms[k] < |es| && Makes(es, ms[k]) => Row(es, ms[k]))
  }

  // --- One more event ---------------------------------------------------------------------------

  lemma {:induction false} StreamsOpen(es: seq<Event>, m: nat)
    requires m < |es| && es[m].body.AssistantDelta? && Streams(es, m)
    ensures Open(es)
  {
    if m < |es| - 1 { StreamsOpen(es[..|es| - 1], m); }
  }

  lemma StreamsPush(es: seq<Event>, e: Event, i: nat)
    requires i < |es|
    ensures Streams(es + [e], i) <==> Streams(es, i) && !EndsBubble(e.body)
  {
    var t := es + [e];
    assert t[|es|] == e && forall j :: 0 <= j < |es| ==> t[j] == es[j];
  }

  lemma MakersPush(es: seq<Event>, e: Event)
    ensures var t := es + [e];
            Makers(t) == Makers(es) + if OwnRow(e.body) || (e.body.AssistantDelta? && !Open(es)) then [|es|] else []
  {
    var t := es + [e];
    assert t[..|es|] == es;
  }

  lemma {:induction false} OpenMaker(es: seq<Event>)
    requires Open(es)
    ensures var ms := Makers(es); ms != [] && es[ms[|ms| - 1]].body.AssistantDelta? && Streams(es, ms[|ms| - 1])
  {
    var init, e := es[..|es| - 1], es[|es| - 1];
    assert init + [e] == es;
    MakersPush(init, e);
    if Open(init) {
      OpenMaker(init);
      StreamsPush(init, e, Makers(init)[|Makers(init)| - 1]);
    }
  }

  /** A later row ends every bubble before it. */
  lemma LaterEnds(es: seq<Event>, i: nat, j: nat)
    requires i < j < |es| && es[i].body.AssistantDelta? && Makes(es, j)
    ensures !Streams(es, i)
  {
    if Streams(es, i) {
      assert forall k :: 0 <= k < j ==> es[..j][k] == es[k];
      StreamsOpen(es[..j], i);
    }
  }

  lemma MakesPush(es: seq<Event>, e: Event, i: nat)
    requires i < |es|
    ensures (es + [e])[i] == es[i] && (es + [e])[..i] == es[..i] && Makes(es + [e], i) == Makes(es, i)
  {
  }

  lemma FirstCardPush(es: seq<Event>, e: Event, i: nat)
    requires i < |es| && es[i].body.ToolStarted?
    ensures FirstCard(es + [e], i) == FirstCard(es, i)
  {
    var t := es + [e];
    assert forall j :: 0 <= j < |es| ==> t[j] == es[j];
  }

  lemma {:induction false} CardBefore(es: seq<Event>, e: Event, i: nat, n: nat)
    requires i < n <= |es| && es[i].body.ToolStarted?
    ensures var t := es + [e];
            && LastFinish(t, i, n) == LastFinish(es, i, n) && LastImages(t, i, n) == LastImages(es, i, n)
            && LastNote(t, i, n) == LastNote(es, i, n) && LastProgress(t, i, n) == LastProgress(es, i, n)
            && FirstEnd(t, i, n) == FirstEnd(es, i, n)
  {
    FirstCardPush(es, e, i);
    hide FirstCard;
    if n > i + 1 {
      assert (es + [e])[n - 1] == es[n - 1];
      CardBefore(es, e, i, n - 1);
    }
  }

  /** What one more event does to a card. */
  function CardAfter(row: Item, first: bool, e: Event): Item
    requires row.Tool?
  {
    match e.body
    case ToolUpdated(_, note, progress) =>
      if first && Given(e.body.callId) == row.id
      then row.(note := if note.Some? then note else row.note, progress := if progress.Some? then progress else row.progress) else row
    case ToolFinished(_, success, interrupted, output, images) =>
      if first && Given(e.body.callId) == row.id
      then row.(status := Outcome(e.body), output := output, images := if images.Some? then images else row.images, finishedAt := Some(e.ts))
      else row
    case _ => if EndsRun(e.body) then Settle(row, e.ts) else row
  }

  lemma CardPush(es: seq<Event>, e: Event, i: nat)
    requires i < |es| && es[i].body.ToolStarted?
    ensures Card(es + [e], i) == CardAfter(Card(es, i), FirstCard(es, i), e)
  {
    var t, n := es + [e], |es|;
    assert t[i] == es[i] && t[n] == e;
    CardBefore(es, e, i, n);
    FirstCardPush(es, e, i);
    hide FirstCard;
    var f := LastFinish(es, i, n);
    if f.Some? { assert t[f.value] == es[f.value]; }
    FinishedSettled(es, i, n);
  }

  /** A finished card does not run. */
  lemma FinishedSettled(es: seq<Event>, i: nat, n: nat)
    requires i < n <= |es| && es[i].body.ToolStarted?
    ensures var f := LastFinish(es, i, n); f.Some? ==> Outcome(es[f.value].body) != Running
  {
  }

  /** What one more event does to a bubble. */
  function BubbleAfter(row: Item, last: bool, e: Event): Item
    requires row.Assistant?
  {
    var id := Stamp(e.body, false);
    var a := if !row.streaming then row
             else if Speaks(e.body, true) then row.(thinking := row.thinking + e.body.text)
             else if Speaks(e.body, false) then row.(text := row.text + e.body.text)
             else if EndsBubble(e.body)
             then row.(streaming := false, completedAt := if Rests(e.body) && e.ts != "" then Some(e.ts) else row.completedAt)
             else row;
    if last && id.Some? then a.(entryId := id) else a
  }

  lemma {:induction false} NotCompletedYet(es: seq<Event>, i: nat)
    requires i < |es| && Streams(es, i)
    ensures CompletedAt(es, i) == None
  {
    if i < |es| - 1 { NotCompletedYet(es[..|es| - 1], i); }
  }

  lemma SaidPush(es: seq<Event>, e: Event, i: nat, thinking: bool)
    requires i < |es|
    ensures Said(es + [e], i, thinking)
         == if Speaks(e.body, thinking) && Streams(es, i) then Said(es, i, thinking) + e.body.text else Said(es, i, thinking)
  {
    var t := es + [e];
    assert t[..|es|] == es;
    StreamsPush(es, e, i);
  }

  lemma EntryIdPush(es: seq<Event>, e: Event, i: nat, user: bool, own: Option<string>)
    requires i < |es|
    ensures EntryId(es + [e], i, user, own)
         == if Stamp(e.body, user).Some? && LastOfKind(es, i, user) then Stamp(e.body, user) else EntryId(es, i, user, own)
  {
    var t := es + [e];
    assert t[..|es|] == es;
  }

  lemma CompletedAtPush(es: seq<Event>, e: Event, i: nat)
    requires i < |es|
    ensures CompletedAt(es + [e], i) == if Streams(es, i) && Rests(e.body) && e.ts != "" then Some(e.ts) else CompletedAt(es, i)
  {
    var t := es + [e];
    assert t[..|es|] == es;
  }

  function WithEntry(it: Item, id: Option<string>): Item
    requires it.User? || it.Assistant?
  {
    match it
    case User(i, prompt, extra, ts, _) => User(i, prompt, extra, ts, id)
    case Assistant(i, text, thinking, streaming, ts, _, completedAt) => Assistant(i, text, thinking, streaming, ts, id, completedAt)
  }

  /** What one more event does to a row. */
  function After(es: seq<Event>, i: nat, e: Event): Item
    requires i < |es| && Makes(es, i)
  {
    var row := Row(es, i);
    if row.User? then
      var id := Stamp(e.body, true);
      if id.Some? && LastOfKind(es, i, true) then WithEntry(row, id) else row
    else if row.Assistant? then BubbleAfter(row, LastOfKind(es, i, false), e)
    else if row.Tool? then CardAfter(row, FirstCard(es, i), e)
    else row
  }

  lemma BubblePush(es: seq<Event>, e: Event, i: nat)
    requires i < |es| && es[i].body.AssistantDelta?
    ensures (es + [e])[i] == es[i] && BubbleRow(es + [e], i) == BubbleAfter(BubbleRow(es, i), LastOfKind(es, i, false), e)
  {
    MakesPush(es, e, i);
    SaidPush(es, e, i, false);
    SaidPush(es, e, i, true);
    StreamsPush(es, e, i);
    CompletedAtPush(es, e, i);
    EntryIdPush(es, e, i, false, es[i].body.entryId);
    if Streams(es, i) { NotCompletedYet(es, i); }
    hide Streams, Said, CompletedAt, EntryId, LastOfKind, Makers, Makes, Rests, OwnRow, Stamp;
  }

  lemma RowAfter(es: seq<Event>, i: nat, e: Event)
    requires i < |es| && Makes(es, i)
    ensures Makes(es + [e], i) && Row(es + [e], i) == After(es, i, e)
  {
    MakesPush(es, e, i);
    hide LastOfKind, Open, Makers, BubbleRow, Card, FirstCard, CardAfter, BubbleAfter;
    if es[i].body.AssistantDelta? {
      BubblePush(es, e, i);
      BubbleShape(es, i);
    } else if es[i].body.ToolStarted? {
      CardPush(es, e, i);
      CardShape(es, i);
    } else if es[i].body.UserMessage? {
      EntryIdPush(es, e, i, true, es[i].body.entryId);
    } else if es[i].body.QueuedMessageStarted? {
      EntryIdPush(es, e, i, true, None);
    }
  }

  lemma BubbleShape(es: seq<Event>, i: nat)
    requires i < |es| && es[i].body.AssistantDelta?
    ensures BubbleRow(es, i).Assistant? && BubbleRow(es, i).streaming == Streams(es, i)
  {
  }

  lemma CardShape(es: seq<Event>, i: nat)
    requires i < |es| && es[i].body.ToolStarted?
    ensures Card(es, i).Tool? && Card(es, i).id == Given(es[i].body.callId)
  {
  }

  // --- The rows of a log ---------------------------------------------------------------------------

  lemma RowsLength(es: seq<Event>)
    ensures |RowsOf(es)| == |Makers(es)|
  {
  }

  lemma RowsAt(es: seq<Event>, k: nat)
    requires k < |Makers(es)|
    ensures |RowsOf(es)| == |Makers(es)| && Makes(es, Makers(es)[k]) && RowsOf(es)[k] == Row(es, Makers(es)[k])
  {
    MakersMake(es);
  }

  lemma RowKind(es: seq<Event>, i: nat)
    requires i < |es| && Makes(es, i)
    ensures Row(es, i).User? <==> MakesKind(es, i, true)
    ensures Row(es, i).Assistant? <==> MakesKind(es, i, false)
    ensures Row(es, i).Assistant? <==> es[i].body.AssistantDelta?
    ensures Row(es, i).Tool? <==> es[i].body.ToolStarted?
    ensures Row(es, i).Tool? ==> Row(es, i).id == Given(es[i].body.callId)
    ensures Streaming(Row(es, i)) <==> es[i].body.AssistantDelta? && Streams(es, i)
  {
    hide Open, Makers, Said, CompletedAt, EntryId;
    if es[i].body.ToolStarted? { CardShape(es, i); }
  }

  lemma RowsOneCaret(es: seq<Event>)
    ensures OneCaret(RowsOf(es))
  {
    MakersMake(es);
    RowsLength(es);
    var ms, rows := Makers(es), RowsOf(es);
    hide Row, Makers, RowsOf, Makes, Streams;
    forall k | 0 <= k < |rows| - 1
      ensures !Streaming(rows[k])
    {
      RowsAt(es, k);
      RowsAt(es, k + 1);
      RowKind(es, ms[k]);
      if es[ms[k]].body.AssistantDelta? { LaterEnds(es, ms[k], ms[k + 1]); }
    }
  }

  lemma RowsOpen(es: seq<Event>)
    ensures OpenBubble(RowsOf(es)) <==> Open(es)
  {
    RowsLength(es);
    var ms := Makers(es);
    hide Row, Makers, RowsOf, Makes, Streams, Open;
    if ms != [] {
      var m := ms[|ms| - 1];
      RowsAt(es, |ms| - 1);
      RowKind(es, m);
      if Streaming(Row(es, m)) { StreamsOpen(es, m); }
    }
    if Open(es) { OpenMaker(es); }
  }

  /** The last row of its kind is the one whose event is the last to make one. */
  lemma LastRow(es: seq<Event>, k: nat, user: bool)
    requires k < |Makers(es)|
    ensures LastOfKind(es, Makers(es)[k], user) <==>
            forall l :: k < l < |RowsOf(es)| ==> !Stampable(RowsOf(es)[l], user)
  {
    MakersMake(es);
    RowsAt(es, k);
    var ms, rows := Makers(es), RowsOf(es);
    hide RowsOf, Makers, Makes, Row;
    forall l | 0 <= l < |rows|
      ensures Stampable(rows[l], user) <==> MakesKind(es, ms[l], user)
    {
      RowsAt(es, l);
      RowKind(es, ms[l]);
    }
    hide Stampable;
    if LastOfKind(es, ms[k], user) {
      forall l | k < l < |rows| ensures !Stampable(rows[l], user) { assert ms[k] < ms[l]; }
    } else {
      var j :| ms[k] < j < |es| && MakesKind(es, j, user);
      KindMakes(es, j, user);
      var l :| 0 <= l < |ms| && ms[l] == j;
      assert l > k && Stampable(rows[l], user);
    }
  }

  lemma KindMakes(es: seq<Event>, j: nat, user: bool)
    requires j < |es| && MakesKind(es, j, user)
    ensures Makes(es, j)
  {
  }

  /** The card that updates of a call reach is the first card of that call. */
  lemma FirstRow(es: seq<Event>, k: nat)
    requires k < |Makers(es)| && es[Makers(es)[k]].body.ToolStarted?
    ensures FirstCard(es, Makers(es)[k]) <==> FindTool(RowsOf(es), es[Makers(es)[k]].body.callId) == k
  {
    MakersMake(es);
    RowsAt(es, k);
    var ms, rows := Makers(es), RowsOf(es);
    var id := es[ms[k]].body.callId;
    hide RowsOf, Makers, Makes, Row, FindTool;
    forall l | 0 <= l < |rows|
      ensures (rows[l].Tool? && rows[l].id == Given(id)) <==> Starts(es[ms[l]].body, id)
    {
      RowsAt(es, l);
      RowKind(es, ms[l]);
    }
    if FirstCard(es, ms[k]) {
      forall l | 0 <= l < k ensures !Starts(es[ms[l]].body, id) { assert ms[l] < ms[k]; }
    } else {
      var j :| 0 <= j < ms[k] && Starts(es[j].body, id);
      StartMakes(es, j);
      var l :| 0 <= l < |ms| && ms[l] == j;
      assert l < k;
    }
  }

  lemma StartMakes(es: seq<Event>, j: nat)
    requires j < |es| && es[j].body.ToolStarted?
    ensures Makes(es, j)
  {
  }

  // --- What the reducer does, row by row ---------------------------------------------------------------

  function Shut(it: Item, completedAt: string): Item {
    if Streaming(it) then it.(streaming := false, completedAt := if completedAt == "" then it.completedAt else Some(completedAt)) else it
  }

  lemma ShutAt(items: seq<Item>, completedAt: string, k: nat)
    requires OneCaret(items) && k < |items|
    ensures |CloseOpen(items, completedAt)| == |items| && CloseOpen(items, completedAt)[k] == Shut(items[k], completedAt)
  {
  }

  predicate LastStampable(items: seq<Item>, k: nat, user: bool)
    requires k < |items|
  {
    Stampable(items[k], user) && forall l :: k < l < |items| ==> !Stampable(items[l], user)
  }

  lemma {:induction false} StampAt(items: seq<Item>, user: bool, id: Option<string>, k: nat)
    requires k < |items|
    ensures StampLast(items, user, id)[k]
         == if id.Some? && id != Some("") && LastStampable(items, k, user) then WithEntry(items[k], id) else items[k]
  {
    if id.Some? && id != Some("") {
      var n := |items| - 1;
      if !Stampable(items[n], user) && k < n {
        StampAt(items[..n], user, id, k);
        assert forall l :: 0 <= l < n ==> items[..n][l] == items[l];
      }
    }
  }

  lemma StampKinds(items: seq<Item>, user: bool, id: Option<string>, kind: bool)
    ensures forall k :: 0 <= k < |items| ==> Stampable(StampLast(items, user, id)[k], kind) == Stampable(items[k], kind)
  {
    forall k | 0 <= k < |items|
      ensures Stampable(StampLast(items, user, id)[k], kind) == Stampable(items[k], kind)
    {
      StampAt(items, user, id, k);
    }
  }

  /** What an event does to item k, given the items around it. */
  function ItemAfter(items: seq<Item>, k: nat, e: Event): Item
    requires k < |items|
  {
    var it := items[k];
    if it.User? then
      var id := Stamp(e.body, true);
      if id.Some? && LastStampable(items, k, true) then WithEntry(it, id) else it
    else if it.Assistant? then BubbleAfter(it, LastStampable(items, k, false), e)
    else if it.Tool? then CardAfter(it, it.id.Given? && FindTool(items, it.id.id) == k, e)
    else it
  }

  lemma DeltaAt(items: seq<Item>, e: Event, k: nat)
    requires OneCaret(items) && k < |items| && e.body.AssistantDelta?
    ensures |FoldItems(items, e.ts, e.body)| == |items| + if OpenBubble(items) then 0 else 1
    ensures FoldItems(items, e.ts, e.body)[k] == ItemAfter(items, k, e)
  {
    hide FindTool;
  }

  lemma OwnRowAt(items: seq<Item>, e: Event, k: nat)
    requires OneCaret(items) && k < |items| && OwnRow(e.body)
    ensures |FoldItems(items, e.ts, e.body)| == |items| + 1
    ensures FoldItems(items, e.ts, e.body)[k] == ItemAfter(items, k, e)
  {
    ShutAt(items, "", k);
    hide FindTool, CloseOpen, OneCaret, LastStampable;
  }

  lemma ToolAt(items: seq<Item>, e: Event, k: nat)
    requires k < |items| && (e.body.ToolUpdated? || e.body.ToolFinished?)
    ensures |FoldItems(items, e.ts, e.body)| == |items|
    ensures FoldItems(items, e.ts, e.body)[k] == ItemAfter(items, k, e)
  {
    hide FindTool, LastStampable;
    var i := FindTool(items, e.body.callId);
    if i < |items| && k == i { assert items[k].id == Given(e.body.callId); }
  }

  /** Stamping the last bubble and then the last prompt. */
  lemma BothStamped(items: seq<Item>, b: Body, k: nat)
    requires k < |items| && b.RunCompleted?
    ensures var r := StampLast(StampLast(items, false, b.assistantEntryId), true, b.userEntryId);
            && |r| == |items|
            && r[k] == if Stamp(b, true).Some? && LastStampable(items, k, true) then WithEntry(items[k], Stamp(b, true))
                       else if Stamp(b, false).Some? && LastStampable(items, k, false) then WithEntry(items[k], Stamp(b, false))
                       else items[k]
  {
    var mid := StampLast(items, false, b.assistantEntryId);
    StampAt(items, false, b.assistantEntryId, k);
    StampKinds(items, false, b.assistantEntryId, true);
    StampAt(mid, true, b.userEntryId, k);
    hide StampLast;
  }

  /** Items keep their kinds when bubbles close and tools are settled. */
  lemma SettledKinds(items: seq<Item>, close: bool, ts: string)
    requires OneCaret(items)
    ensures var r := InterruptTools(if close then CloseOpen(items, ts) else items, ts);
            && |r| == |items|
            && (forall k :: 0 <= k < |items| ==> r[k] == Settle(if close then Shut(items[k], ts) else items[k], ts))
            && (forall k, user :: 0 <= k < |items| ==> LastStampable(r, k, user) == LastStampable(items, k, user))
  {
    var r := InterruptTools(if close then CloseOpen(items, ts) else items, ts);
    forall k | 0 <= k < |items|
      ensures |r| == |items| && r[k] == Settle(if close then Shut(items[k], ts) else items[k], ts)
    {
      if close { ShutAt(items, ts, k); }
    }
    assert |r| == |items|;
    assert forall k, user :: 0 <= k < |items| ==> Stampable(r[k], user) == Stampable(items[k], user);
  }

  lemma CompletedAtRow(items: seq<Item>, e: Event, k: nat)
    requires OneCaret(items) && k < |items| && e.body.RunCompleted?
    ensures |FoldItems(items, e.ts, e.body)| == |items|
    ensures FoldItems(items, e.ts, e.body)[k] == ItemAfter(items, k, e)
  {
    var close := e.body.snapshot.status != Active;
    SettledKinds(items, close, e.ts);
    BothStamped(InterruptTools(if close then CloseOpen(items, e.ts) else items, e.ts), e.body, k);
    assert LastStampable(items, k, true) ==> items[k].User?;
    assert LastStampable(items, k, false) ==> items[k].Assistant?;
    hide FindTool, StampLast, InterruptTools, CloseOpen, LastStampable, OneCaret;
  }

  lemma OtherAt(items: seq<Item>, e: Event, k: nat)
    requires OneCaret(items) && k < |items|
    requires !OwnRow(e.body) && !e.body.AssistantDelta? && !e.body.ToolUpdated? && !e.body.ToolFinished? && !e.body.RunCompleted?
    requires !e.body.SessionReset?
    ensures |FoldItems(items, e.ts, e.body)| == |items|
    ensures FoldItems(items, e.ts, e.body)[k] == ItemAfter(items, k, e)
  {
    ShutAt(items, e.ts, k);
    hide FindTool, CloseOpen, OneCaret, LastStampable;
  }

  lemma FoldAt(items: seq<Item>, e: Event, k: nat)
    requires OneCaret(items) && k < |items| && !e.body.SessionReset?
    ensures |FoldItems(items, e.ts, e.body)| == |items| + if OwnRow(e.body) || (e.body.AssistantDelta? && !OpenBubble(items)) then 1 else 0
    ensures FoldItems(items, e.ts, e.body)[k] == ItemAfter(items, k, e)
  {
    hide FoldItems, ItemAfter, OpenBubble, OneCaret;
    if OwnRow(e.body) {
      OwnRowAt(items, e, k);
    } else if e.body.AssistantDelta? {
      DeltaAt(items, e, k);
    } else if e.body.ToolUpdated? || e.body.ToolFinished? {
      ToolAt(items, e, k);
    } else if e.body.RunCompleted? {
      CompletedAtRow(items, e, k);
    } else {
      OtherAt(items, e, k);
    }
  }

  /** The row an event makes. */
  function NewItem(e: Event, at: nat): Item
    requires OwnRow(e.body) || e.body.AssistantDelta?
  {
    match e.body
    case UserMessage(id, text, extra, entryId) => User(Given(id), text, extra, e.ts, entryId)
    case QueuedMessageStarted(q) => User(Given(q.id), q.text, q.extra, q.createdAt, None)
    case CustomMessage(id, customType, text, display, boundary) => Inject(Given(id), customType, text, display, boundary, e.ts)
    case AssistantDelta(text, channel, entryId) =>
      Assistant(Bubble(e.ts, at), if channel == Some(Thinking) then "" else text, if channel == Some(Thinking) then text else "",
                true, e.ts, entryId, None)
    case ToolStarted(callId, name, input) => Tool(Given(callId), name, input, None, None, None, None, Running, e.ts, None)
    case RunFailed(error) => Notice(ErrAt(e.ts), Severe, error)
    case HostUiRequest(q) => Notice(Given(q.requestId), if q.level.Some? then q.level.value else Info, q.message)
    case CompatibilityIssue(text) => Notice(CompatAt(e.ts), Warning, text)
  }

  lemma FoldNew(items: seq<Item>, e: Event)
    requires OwnRow(e.body) || (e.body.AssistantDelta? && !OpenBubble(items))
    ensures |FoldItems(items, e.ts, e.body)| == |items| + 1
    ensures FoldItems(items, e.ts, e.body)[|items|] == NewItem(e, |items|)
  {
    hide FindTool;
  }

  lemma RowNew(es: seq<Event>, e: Event)
    requires OwnRow(e.body) || (e.body.AssistantDelta? && !Open(es))
    ensures Makes(es + [e], |es|) && Row(es + [e], |es|) == NewItem(e, |Makers(es)|)
  {
    var t, n := es + [e], |es|;
    assert t[n] == e && t[..n] == es;
    assert |t| == n + 1;
    if e.body.AssistantDelta? {
      assert Said(es, n, false) == "" && Said(es, n, true) == "";
      assert "" + e.body.text == e.body.text;
    }
    hide Open, Makers;
  }

  // --- Every log -----------------------------------------------------------------------------------------

  function ItemStep(items: seq<Item>, e: Event): seq<Item> {
    FoldItems(items, e.ts, e.body)
  }

  ghost predicate NoReset(es: seq<Event>) {
    forall i :: 0 <= i < |es| ==> !es[i].body.SessionReset?
  }

  lemma ItemFollows(es: seq<Event>, e: Event, k: nat)
    requires k < |Makers(es)| && Makes(es, Makers(es)[k]) && !e.body.SessionReset?
    ensures var items := ItemStep(RowsOf(es), e);
            k < |RowsOf(es)| <= |items| && items[k] == After(es, Makers(es)[k], e)
  {
    RowsOneCaret(es);
    RowsAt(es, k);
    var m, rows := Makers(es)[k], RowsOf(es);
    FoldAt(rows, e, k);
    LastRow(es, k, true);
    LastRow(es, k, false);
    RowKind(es, m);
    if es[m].body.ToolStarted? { FirstRow(es, k); }
    hide FoldItems, RowsOf, Makers, Makes, Row, FirstCard, FindTool, LastOfKind, OneCaret, CardAfter, BubbleAfter, MakesKind;
  }

  lemma RowsStep(es: seq<Event>, e: Event)
    requires !e.body.SessionReset?
    ensures ItemStep(RowsOf(es), e) == RowsOf(es + [e])
  {
    var t, rows, items := es + [e], RowsOf(es), ItemStep(RowsOf(es), e);
    MakersPush(es, e);
    RowsLength(es);
    RowsLength(t);
    RowsOpen(es);
    hide RowsOf, Makers, Makes, Row, ItemStep, Open, OpenBubble, After;
    var makes := OwnRow(e.body) || (e.body.AssistantDelta? && !Open(es));
    StepLength(rows, e);
    RowsOneCaret(es);
    assert |items| == |Makers(t)|;
    forall k | 0 <= k < |items|
      ensures items[k] == RowsOf(t)[k]
    {
      RowsAt(t, k);
      if k < |rows| {
        RowsAt(es, k);
        ItemFollows(es, e, k);
        RowAfter(es, Makers(es)[k], e);
      } else {
        RowNew(es, e);
        StepNew(rows, e);
      }
    }
  }

  lemma StepLength(items: seq<Item>, e: Event)
    requires !e.body.SessionReset?
    ensures |ItemStep(items, e)| == |items| + if OwnRow(e.body) || (e.body.AssistantDelta? && !OpenBubble(items)) then 1 else 0
  {
    hide FindTool;
  }

  lemma StepNew(items: seq<Item>, e: Event)
    requires OwnRow(e.body) || (e.body.AssistantDelta? && !OpenBubble(items))
    ensures |ItemStep(items, e)| == |items| + 1 && ItemStep(items, e)[|items|] == NewItem(e, |items|)
  {
    FoldNew(items, e);
  }

  /** For every log of one stream without a reset: its items are the rows its events make. */
  lemma {:induction false} RowsFollow(es: seq<Event>)
    requires NoReset(es)
    ensures FoldAll(ItemStep, [], es) == RowsOf(es)
  {
    if es == [] {
      assert Makers(es) == [];
    } else {
      var init, e := es[..|es| - 1], es[|es| - 1];
      RowsFollow(init);
      RowsStep(init, e);
      assert init + [e] == es;
    }
  }

  /** The session's own events since the last reset of the session. */
  function OwnEvents(es: seq<Event>): (own: seq<Event>)
    ensures NoReset(own)
  {
    if es == [] then []
    else
      var own, e := OwnEvents(es[..|es| - 1]), es[|es| - 1];
      if e.handle.Some? then own else if e.body.SessionReset? then [] else own + [e]
  }

  lemma OwnStep(r: Reducer, s: State, e: Event)
    ensures r.Fold(s, e).items ==
      if e.handle.Some? then s.items else if e.body.SessionReset? then [] else ItemStep(s.items, e)
  {
    hide FoldMeta;
  }

  lemma {:induction false} OwnItems(r: Reducer, es: seq<Event>)
    ensures FoldAll(r.Fold, Initial, es).items == FoldAll(ItemStep, [], OwnEvents(es))
  {
    if es != [] {
      var init, e := es[..|es| - 1], es[|es| - 1];
      hide ItemStep;
      OwnItems(r, init);
      OwnStep(r, FoldAll(r.Fold, Initial, init), e);
      FoldAllPush(ItemStep, [], OwnEvents(init), e);
      assert FoldAll(r.Fold, Initial, es) == r.Fold(FoldAll(r.Fold, Initial, init), e);
    }
  }

  /** For every log: the transcript is, in order, the rows that the session's own events since the last reset make. */
  lemma TranscriptFollows(r: Reducer, es: seq<Event>)
    ensures FoldAll(r.Fold, Initial, es).items == RowsOf(OwnEvents(es))
  {
    OwnItems(r, es);
    RowsFollow(OwnEvents(es));
  }
}
