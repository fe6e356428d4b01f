/**
 What a subagent's transcript shows, said of the log alone (protocol/src/state.ts:275-346): its status, its rows while they
 are small, and exactly how they are cut when they are not.
 */
module NestedRows {
  import opened Options
  import opened Logs
  import opened Reset
  import opened Retention
  import opened Rows
  import opened Transcript

  // --- Status --------------------------------------------------------------------------------

  /** Everything since the last reset of the session. */
  function Since(es: seq<Event>): seq<Event> {
    if es == [] then []
    else
      var e := es[|es| - 1];
      if e.handle.None? && e.body.SessionReset? then [] else Since(es[..|es| - 1]) + [e]
  }

  /** An event of the subagent's own stream. */
  predicate OfStream(e: Event, h: string) {
    e.handle == Some(h) && !e.body.NestedReplayStatus?
  }

  predicate Replays(e: Event, h: string) {
    e.body.NestedReplayStatus? && e.body.handle == h
  }

  predicate Mentioned(es: seq<Event>, h: string) {
    exists i :: 0 <= i < |es| && (OfStream(es[i], h) || Replays(es[i], h))
  }

  function RunAfter(b: Body, before: NestedRun): NestedRun {
    if b.RunFailed? || (b.SessionClosed? && b.failed) then NestedFailed
    else if b.SessionClosed? then NestedClosed
    else if b.AssistantDelta? || b.ToolStarted? then NestedRunning
    else before
  }

  /** The run status is what the last failure, end, delta or tool start of the stream says. */
  function LastRun(es: seq<Event>, h: string): NestedRun {
    if es == [] then NestedRunning
    else
      var before, e := LastRun(es[..|es| - 1], h), es[|es| - 1];
      if OfStream(e, h) then RunAfter(e.body, before) else before
  }

  /** A replay status stands until the stream's next event, which makes the stream available. */
  function LastReplay(es: seq<Event>, h: string): Replay {
    if es == [] then Loading
    else
      var e := es[|es| - 1];
      if Replays(e, h) then e.body.replay else if OfStream(e, h) then Available else LastReplay(es[..|es| - 1], h)
  }

  function LastReason(es: seq<Event>, h: string): Option<string> {
    if es == [] then None
    else if Replays(es[|es| - 1], h) then es[|es| - 1].body.reason else LastReason(es[..|es| - 1], h)
  }

  ghost predicate ShowsStatus(s: State, es: seq<Event>, h: string) {
    && (h in s.nested <==> Mentioned(es, h))
    && Stream(s, h).run == LastRun(es, h) && Stream(s, h).replay == LastReplay(es, h) && Stream(s, h).replayReason == LastReason(es, h)
  }

  lemma MentionedPush(es: seq<Event>, e: Event, h: string)
    ensures Mentioned(es + [e], h) <==> Mentioned(es, h) || OfStream(e, h) || Replays(e, h)
  {
    var t := es + [e];
    assert t[|es|] == e && forall i :: 0 <= i < |es| ==> t[i] == es[i];
  }

  lemma StreamStatus(r: Reducer, s: State, e: Event, h: string)
    requires OfStream(e, h)
    ensures var t, u := Stream(s, h), Stream(r.Fold(s, e), h);
            h in r.Fold(s, e).nested && u.run == RunAfter(e.body, t.run) && u.replay == Available && u.replayReason == t.replayReason
  {
    hide FoldItems, FoldMeta, Bounded;
  }

  lemma OtherStatus(r: Reducer, s: State, e: Event, h: string)
    requires !OfStream(e, h) && !(e.handle.None? && e.body.SessionReset?)
    ensures var t, u := Stream(s, h), Stream(r.Fold(s, e), h);
            && (h in r.Fold(s, e).nested <==> h in s.nested || Replays(e, h))
            && u.run == t.run && u.replay == (if Replays(e, h) then e.body.replay else t.replay)
            && u.replayReason == (if Replays(e, h) then e.body.reason else t.replayReason)
  {
    hide FoldItems, FoldMeta, Bounded;
  }

  lemma StatusStep(r: Reducer, s: State, es: seq<Event>, e: Event, h: string)
    requires ShowsStatus(s, es, h) && !(e.handle.None? && e.body.SessionReset?)
    ensures ShowsStatus(r.Fold(s, e), es + [e], h)
  {
    assert (es + [e])[..|es|] == es;
    MentionedPush(es, e, h);
    if OfStream(e, h) { StreamStatus(r, s, e, h); } else { OtherStatus(r, s, e, h); }
    var u := r.Fold(s, e);
    StatusIs(u, es, e, h);
  }

  /** The statuses after one more event, said in full. */
  lemma StatusIs(u: State, es: seq<Event>, e: Event, h: string)
    requires (es + [e])[..|es|] == es
    requires h in u.nested <==> Mentioned(es + [e], h)
    requires Stream(u, h).run == if OfStream(e, h) then RunAfter(e.body, LastRun(es, h)) else LastRun(es, h)
    requires Stream(u, h).replay == if Replays(e, h) then e.body.replay else if OfStream(e, h) then Available else LastReplay(es, h)
    requires Stream(u, h).replayReason == if Replays(e, h) then e.body.reason else LastReason(es, h)
    ensures ShowsStatus(u, es + [e], h)
  {
    hide Mentioned, Stream, RunAfter;
  }

  /** For every log and every subagent: the stream is there, and its statuses are what the last event to set each says. */
  lemma {:induction false} StatusFollows(r: Reducer, es: seq<Event>, h: string)
    ensures ShowsStatus(FoldAll(r.Fold, Initial, es), Since(es), h)
  {
    if es != [] {
      var init, e := es[..|es| - 1], es[|es| - 1];
      hide ShowsStatus;
      StatusFollows(r, init, h);
      if e.handle.None? && e.body.SessionReset? {
        ResetStep(r, FoldAll(r.Fold, Initial, init), e.ts);
        NothingMentioned(WithTranscript(FoldAll(r.Fold, Initial, init), Initial), h);
      } else {
        StatusStep(r, FoldAll(r.Fold, Initial, init), Since(init), e, h);
      }
      assert FoldAll(r.Fold, Initial, es) == r.Fold(FoldAll(r.Fold, Initial, init), e);
    } else {
      NothingMentioned(Initial, h);
    }
  }

  lemma NothingMentioned(s: State, h: string)
    requires s.nested == map[]
    ensures ShowsStatus(s, [], h)
  {
  }

  // --- How rows are cut --------------------------------------------------------------------------

  /** The last n characters, or all of them. */
  predicate IsTail(cut: string, text: string, n: nat) {
    |cut| <= |text| && cut == text[|text| - |cut|..] && |cut| == if |text| <= n then |text| else n
  }

  predicate IsTailJson(cut: Option<Json>, j: Option<Json>, n: nat) {
    if j.Some? && j.value.Text? then cut.Some? && cut.value.Text? && IsTail(cut.value.text, j.value.text, n) else cut == j
  }

  predicate IsTailText(cut: Option<string>, text: Option<string>, n: nat) {
    if text.Some? then cut.Some? && IsTail(cut.value, text.value, n) else cut == None
  }

  predicate AreTails(cut: Option<seq<string>>, images: Option<seq<string>>, n: nat) {
    if images.Some?
    then cut.Some? && |cut.value| == |images.value| && forall i :: 0 <= i < |cut.value| ==> IsTail(cut.value[i], images.value[i], n)
    else cut == None
  }

  lemma SuffixIsTail(text: string, n: nat)
    ensures IsTail(Suffix(text, n), text, n)
  {
  }

  /** Bounding leaves the last 8192 characters of each text, 4096 of a tool's note and 16384 of each image, and nothing else
      changes. */
  lemma BoundsExactly(it: Item)
    ensures var b := BoundItem(it);
      match it
      case User(_, _, _, _, _) => b == it
      case Assistant(_, text, thinking, _, _, _, _) =>
        b.Assistant? && IsTail(b.text, text, 8192) && IsTail(b.thinking, thinking, 8192) && b == it.(text := b.text, thinking := b.thinking)
      case Notice(_, _, message) => b.Notice? && IsTail(b.message, message, 8192) && b == it.(message := b.message)
      case Inject(_, _, content, _, _, _) => b.Inject? && IsTail(b.content, content, 8192) && b == it.(content := b.content)
      case Tool(_, _, input, output, images, note, _, _, _, _) =>
        && b.Tool? && b == it.(input := b.input, output := b.output, images := b.images, note := b.note)
        && IsTailText(b.note, note, 4096) && IsTailJson(b.input, input, 8192) && IsTailJson(b.output, output, 8192)
        && AreTails(b.images, images, 16384)
  {
  }

  /** What the placeholder of a tool in flight keeps of a payload: the last 1024 characters of a string. */
  predicate IsPlaceholderJson(cut: Option<Json>, j: Option<Json>, notice: string) {
    if j.Some? then cut.Some? && cut.value.Text? && (if j.value.Text? then IsTail(cut.value.text, j.value.text, 1024) else cut.value.text == notice)
    else cut == None
  }

  predicate IsPlaceholderImages(cut: Option<seq<string>>, images: Option<seq<string>>) {
    if images == None then cut == None
    else if images.value == [] then cut == Some([])
    else cut.Some? && |cut.value| == 1 && IsTail(cut.value[0], images.value[0], 1024)
  }

  /** And of the images the first. */
  lemma PlaceholderExactly(it: Item)
    ensures var p := Placeholder(it);
      if !RunningTool(it) then p == it
      else
        && p.Tool? && p == it.(input := p.input, output := p.output, images := p.images, note := p.note)
        && IsPlaceholderJson(p.input, it.input, "[input truncated]") && IsPlaceholderJson(p.output, it.output, "[output truncated]")
        && IsTailText(p.note, it.note, 1024) && IsPlaceholderImages(p.images, it.images)
  {
    if RunningTool(it) {
      PayloadPlaceholder(it.input, "[input truncated]");
      PayloadPlaceholder(it.output, "[output truncated]");
      if it.note.Some? { SuffixIsTail(it.note.value, 1024); }
      if it.images.Some? && it.images.value != [] { SuffixIsTail(it.images.value[0], 1024); }
      hide IsPlaceholderJson, PlaceholderJson, IsTail, Suffix;
    }
  }

  lemma PayloadPlaceholder(j: Option<Json>, notice: string)
    ensures IsPlaceholderJson(PlaceholderJson(j, notice), j, notice)
  {
  }

  // --- After every log ------------------------------------------------------------------------------

  predicate ShortJson(j: Option<Json>, n: nat) {
    j.Some? && j.value.Text? ==> |j.value.text| <= n
  }

  /** Every text is within its bound. */
  predicate Short(it: Item) {
    match it
    case User(_, _, _, _, _) => true
    case Assistant(_, text, thinking, _, _, _, _) => |text| <= 8192 && |thinking| <= 8192
    case Notice(_, _, message) => |message| <= 8192
    case Inject(_, _, content, _, _, _) => |content| <= 8192
    case Tool(_, _, input, output, images, note, _, _, _, _) =>
      && (note.Some? ==> |note.value| <= 4096) && ShortJson(input, 8192) && ShortJson(output, 8192)
      && (images.Some? ==> forall i :: 0 <= i < |images.value| ==> |images.value[i]| <= 16384)
  }

  /** A short item is left as it is. */
  lemma ShortStays(it: Item)
    requires Short(it)
    ensures BoundItem(it) == it
  {
    if it.Tool? && it.images.Some? {
      assert SuffixAll(it.images.value, 16384) == it.images.value;
    }
  }

  lemma BoundIsShort(it: Item)
    ensures Short(BoundItem(it)) && (Short(it) ==> Short(Placeholder(it)))
  {
  }

  ghost predicate AllShort(items: seq<Item>) {
    forall i :: 0 <= i < |items| ==> Short(items[i])
  }

  lemma {:induction false} EvictShort(r: Reducer, items: seq<Item>)
    requires AllShort(items)
    ensures AllShort(r.Evict(items).0)
    decreases |items|
  {
    var i := FirstEvictable(items);
    if r.size(items) > SUBAGENT_TRANSCRIPT_LIMIT {
      if i < |items| {
        EvictShort(r, items[..i] + items[i + 1..]);
      } else {
        forall k | 0 <= k < |items| ensures Short(Placeholder(items[k])) { BoundIsShort(items[k]); }
      }
    }
  }

  /** Within 64 kilobytes, or nothing but tools in flight is left. */
  ghost predicate Budgeted(r: Reducer, t: Nested) {
    && AllShort(t.items) && t.retainedBytes == r.size(t.items)
    && (t.retainedBytes <= 65536 || forall i :: 0 <= i < |t.items| ==> RunningTool(t.items[i]))
  }

  lemma RetainBudgeted(r: Reducer, t: Nested)
    ensures Budgeted(r, r.Retain(t))
  {
    RetainKeepsInFlight(r, t);
    forall i | 0 <= i < |t.items| ensures Short(Bounded(t.items)[i]) { BoundIsShort(t.items[i]); }
    EvictShort(r, Bounded(t.items));
    hide Short, Bounded;
  }

  ghost predicate AllBudgeted(r: Reducer, s: State) {
    forall h :: h in s.nested ==> Budgeted(r, s.nested[h]) || s.nested[h].items == []
  }

  lemma BudgetStep(r: Reducer, s: State, e: Event)
    requires AllBudgeted(r, s)
    ensures AllBudgeted(r, r.Fold(s, e))
  {
    if e.handle.Some? {
      var h := e.handle.value;
      forall t: Nested ensures Budgeted(r, r.Retain(t)) { RetainBudgeted(r, t); }
      hide Budgeted, FoldItems, FoldMeta;
    } else {
      hide Budgeted, FoldItems, FoldMeta;
    }
  }

  /** After every log every subagent's rows are short and within the budget, unless only tools in flight are left. */
  lemma {:induction false} EveryStreamBudgeted(r: Reducer, es: seq<Event>)
    ensures AllBudgeted(r, FoldAll(r.Fold, Initial, es))
  {
    if es != [] {
      hide AllBudgeted;
      EveryStreamBudgeted(r, es[..|es| - 1]);
      BudgetStep(r, FoldAll(r.Fold, Initial, es[..|es| - 1]), es[|es| - 1]);
    }
  }

  // --- While everything fits ---------------------------------------------------------------------------

  /** The stream's own events since it or the session was last reset. */
  function StreamEvents(es: seq<Event>, h: string): (own: seq<Event>)
    ensures NoReset(own)
  {
    if es == [] then []
    else
      var own, e := StreamEvents(es[..|es| - 1], h), es[|es| - 1];
      if e.handle.None? && e.body.SessionReset? then []
      else if !OfStream(e, h) then own
      else if e.body.SessionReset? then [] else own + [e]
  }

  /** The rows of the stream have been short and within the budget all along. */
  ghost predicate Roomy(r: Reducer, es: seq<Event>, h: string) {
    es != [] ==>
      && Roomy(r, es[..|es| - 1], h)
      && AllShort(RowsOf(StreamEvents(es, h))) && Fits(r, RowsOf(StreamEvents(es, h)))
  }

  lemma RoomyStays(r: Reducer, t: Nested)
    requires AllShort(t.items) && Fits(r, t.items)
    ensures r.Retain(t).items == t.items
  {
    forall i | 0 <= i < |t.items| ensures BoundItem(t.items[i]) == t.items[i] { ShortStays(t.items[i]); }
    assert Bounded(t.items) == t.items;
  }

  lemma StreamStep(r: Reducer, s: State, e: Event, h: string)
    ensures var t, u := Stream(s, h), Stream(r.Fold(s, e), h);
      if e.handle.None? && e.body.SessionReset? then u.items == []
      else if OfStream(e, h) then exists n: Nested :: n.items == ItemStep(t.items, e) && u.items == r.Retain(n).items
      else u.items == t.items
  {
    hide FoldItems, FoldMeta;
    if OfStream(e, h) {
      var t := Stream(s, h);
      var run := Stream(r.Fold(s, e), h).run;
      assert Stream(r.Fold(s, e), h) == r.Retain(t.(items := ItemStep(t.items, e), run := run, replay := Available));
    }
  }

  lemma StreamEventsStep(es: seq<Event>, h: string)
    requires es != [] && OfStream(es[|es| - 1], h)
    ensures ItemStep(RowsOf(StreamEvents(es[..|es| - 1], h)), es[|es| - 1]) == RowsOf(StreamEvents(es, h))
  {
    var e := es[|es| - 1];
    if e.body.SessionReset? {
      assert Makers([]) == [];
    } else {
      RowsStep(StreamEvents(es[..|es| - 1], h), e);
    }
  }

  /** And while they are, the subagent's transcript is, in order, the rows its own events make. */
  lemma {:induction false} StreamFollows(r: Reducer, es: seq<Event>, h: string)
    requires Roomy(r, es, h)
    ensures Stream(FoldAll(r.Fold, Initial, es), h).items == RowsOf(StreamEvents(es, h))
  {
    if es == [] {
      assert Makers([]) == [];
    } else {
      var init, e := es[..|es| - 1], es[|es| - 1];
      var s := FoldAll(r.Fold, Initial, init);
      StreamFollows(r, init, h);
      StreamStep(r, s, e, h);
      assert FoldAll(r.Fold, Initial, es) == r.Fold(s, e);
      hide RowsOf, ItemStep, AllShort, Fits, FoldAll;
      if e.handle.None? && e.body.SessionReset? {
        NoRows();
      } else if OfStream(e, h) {
        StreamEventsStep(es, h);
        var n: Nested :| n.items == ItemStep(Stream(s, h).items, e) && Stream(r.Fold(s, e), h).items == r.Retain(n).items;
        RoomyStays(r, n);
      }
    }
  }

  lemma NoRows()
    ensures RowsOf([]) == []
  {
    assert Makers([]) == [];
  }
}
