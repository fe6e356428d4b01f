/**
 The folded, render-ready view of a session and the reducer that builds it
 (protocol/src/state.ts). The server ships driver events; every client folds them
 from the initial state with this reducer.

 Payloads the reducer only copies (images of a prompt, resolved references, model
 configuration, ...) are strings. The UTF-8 length of the JSON of a list of items is
 the `size` parameter of `Reducer`: every statement below holds for every size function.
 */
module Transcript {
  import opened Options

  // --- Transcript items ------------------------------------------------------

  // Generated ids keep the parts they are printed from: `a-<ts>-<n>`, `err-<ts>`, `compat-<ts>`.
  datatype ItemId = Given(id: string) | Bubble(ts: string, at: nat) | ErrAt(ts: string) | CompatAt(ts: string)

  datatype ToolStatus = Running | Ok | Error | Interrupted

  datatype Json = Text(text: string) | Other(json: string)

  datatype Level = Info | Warning | Severe

  datatype Item =
    | User(id: ItemId, prompt: string, extra: string, ts: string, entryId: Option<string>)
    | Assistant(id: ItemId, text: string, thinking: string, streaming: bool, ts: string,
                entryId: Option<string>, completedAt: Option<string>)
    | Tool(id: ItemId, name: string, input: Option<Json>, output: Option<Json>, images: Option<seq<string>>,
           note: Option<string>, progress: Option<real>, status: ToolStatus, startedAt: string, finishedAt: Option<string>)
    | Notice(id: ItemId, level: Level, message: string)
    | Inject(id: ItemId, customType: string, content: string, display: bool, turnBoundary: bool, ts: string)

  // --- Session state ---------------------------------------------------------

  datatype SessionStatus = Idle | Initializing | Active | Failed

  /** The snapshot fields that share one rule: a snapshot that carries the field overwrites it,
      one that omits it leaves it alone. */
  datatype MetaField =
    | Config | Usage | Facet | PermissionMonitor | AdventurousHandoff | NotificationAutodrain
    | ActivePlan | Flags | Todos | McpServers | Cwd | CwdStackDepth

  datatype GoalChange = KeepGoal | ClearGoal | SetGoal(goal: string)

  datatype Queued = Queued(id: string, text: string, extra: string, createdAt: string)

  datatype Placement = AboveComposer | BelowComposer

  datatype Widget = Widget(key: string, lines: seq<string>, placement: Placement)

  datatype Request =
    | Dialog(requestId: string, prompt: string)
    | StatusLine(requestId: string, key: string, line: Option<string>)
    | WidgetLines(requestId: string, key: string, lines: Option<seq<string>>, placement: Option<Placement>)
    | TitleText(requestId: string, title: string)
    | Notify(requestId: string, message: string, level: Option<Level>)
    | ResetAmbient(requestId: string)
    | EditorText(requestId: string)

  datatype Replay = Loading | Available | Unavailable

  datatype NestedRun = NestedRunning | NestedCompleted | NestedFailed | NestedClosed

  datatype Nested = Nested(items: seq<Item>, truncated: bool, retainedBytes: nat,
                           replay: Replay, replayReason: Option<string>, run: NestedRun)

  /** Everything in the session state except the transcript. */
  datatype Meta = Meta(
    ref: Option<string>, title: string, status: SessionStatus, fields: map<MetaField, string>, goal: Option<string>,
    approvals: seq<Request>, statuses: map<string, string>, widgets: map<string, Widget>, ambientTitle: Option<string>,
    queued: seq<Queued>)

  /** `items` is the top-level transcript; `nested` maps each subagent handle to its own. */
  datatype State = State(meta: Meta, items: seq<Item>, nested: map<string, Nested>)

  const InitialMeta := Meta(
    None, "", Idle, map[Config := "{}", Flags := "[]", Todos := "[]", McpServers := "[]"], None,
    [], map[], map[], None, [])

  const Initial := State(InitialMeta, [], map[])

  // --- Driver events ---------------------------------------------------------

  datatype Snapshot = Snapshot(ref: string, title: string, status: SessionStatus, fields: map<MetaField, string>,
                               goal: GoalChange, queued: Option<seq<Queued>>)

  datatype Channel = Answer | Thinking

  datatype Body =
    | SessionOpened(snapshot: Snapshot)
    | SessionUpdated(snapshot: Snapshot)
    | RunCompleted(snapshot: Snapshot, userEntryId: Option<string>, assistantEntryId: Option<string>)
    | UserMessage(id: string, text: string, extra: string, entryId: Option<string>)
    | CustomMessage(id: string, customType: string, text: string, display: bool, turnBoundary: bool)
    | QueuedMessageStarted(entry: Queued)
    | QueueUpdated(messages: seq<Queued>)
    | AssistantDelta(text: string, channel: Option<Channel>, entryId: Option<string>)
    | ToolStarted(callId: string, toolName: string, input: Option<Json>)
    | ToolUpdated(callId: string, note: Option<string>, progress: Option<real>)
    | ToolFinished(callId: string, success: bool, interrupted: bool, output: Option<Json>, images: Option<seq<string>>)
    | UsageUpdated(usage: string)
    | RunFailed(error: string)
    | HostUiRequest(request: Request)
    | HostUiResolved(requestId: string)
    | CompatibilityIssue(text: string)
    | SessionClosed(failed: bool)
    | SessionReset
    | NestedReplayStatus(handle: string, replay: Replay, reason: Option<string>)

  /** `handle` is the subagent handle; `None` is the top-level session stream. */
  datatype Event = Event(ts: string, handle: Option<string>, body: Body)

  // --- Item helpers ----------------------------------------------------------

  predicate OpenBubble(items: seq<Item>) {
    items != [] && items[|items| - 1].Assistant? && items[|items| - 1].streaming
  }

  /** Close the open assistant bubble; a non-empty `completedAt` marks it as the turn-final one. */
  function CloseOpen(items: seq<Item>, completedAt: string): seq<Item> {
    if !OpenBubble(items) then items else
      var a := items[|items| - 1];
      var stamp := if completedAt == "" then a.completedAt else Some(completedAt);
      items[|items| - 1 := a.(streaming := false, completedAt := stamp)]
  }

  function StampLast(items: seq<Item>, user: bool, entryId: Option<string>): (r: seq<Item>)
    ensures |r| == |items|
  {
    if items == [] || entryId == None || entryId == Some("") then items else
      var n := |items| - 1;
      if (user && items[n].User?) || (!user && items[n].Assistant?) then items[n := items[n].(entryId := entryId)]
      else StampLast(items[..n], user, entryId) + [items[n]]
  }

  function Settle(item: Item, finishedAt: string): Item {
    if item.Tool? && item.status == Running
    then item.(status := Interrupted, finishedAt := Some(finishedAt))
    else item
  }

  function InterruptTools(items: seq<Item>, finishedAt: string): seq<Item> {
    seq(|items|, i requires 0 <= i < |items| => Settle(items[i], finishedAt))
  }

  /** Index of the first tool card with this call id, or the length of the list. */
  function FindTool(items: seq<Item>, callId: string): (i: nat)
    ensures i <= |items|
    ensures i < |items| ==> items[i].Tool? && items[i].id == Given(callId)
    ensures forall k :: 0 <= k < i ==> !(items[k].Tool? && items[k].id == Given(callId))
  {
    if items == [] then 0
    else if items[0].Tool? && items[0].id == Given(callId) then 0
    else 1 + FindTool(items[1..], callId)
  }

  function AppendDelta(items: seq<Item>, ts: string, text: string, channel: Option<Channel>, entryId: Option<string>): seq<Item> {
    var rows := if OpenBubble(items) then items
                  else items + [Assistant(Bubble(ts, |items|), "", "", true, ts, entryId, None)];
    var a := rows[|rows| - 1];
    rows[|rows| - 1 := if channel == Some(Thinking) then a.(thinking := a.thinking + text) else a.(text := a.text + text)]
  }

  // --- The reducer: what each event does to the meta state ---------------------

  function ApplySnapshot(m: Meta, p: Snapshot): Meta {
    m.(ref := Some(p.ref), title := p.title, status := p.status, fields := m.fields + p.fields,
       goal := match p.goal case KeepGoal => m.goal case ClearGoal => None case SetGoal(g) => Some(g),
       queued := if p.queued.Some? then p.queued.value else m.queued)
  }

  predicate Pending(rs: seq<Request>, id: string) {
    exists i :: 0 <= i < |rs| && rs[i].requestId == id
  }

  function ApplyRequest(m: Meta, r: Request): Meta {
    match r
    case Dialog(id, _) => if Pending(m.approvals, id) then m else m.(approvals := m.approvals + [r])
    case StatusLine(_, key, line) =>
      if line.Some? && line.value != "" then m.(statuses := m.statuses[key := line.value])
      else m.(statuses := m.statuses - {key})
    case WidgetLines(_, key, lines, placement) =>
      if lines.Some? && lines.value != []
      then m.(widgets := m.widgets[key := Widget(key, lines.value, if placement.Some? then placement.value else AboveComposer)])
      else m.(widgets := m.widgets - {key})
    case TitleText(_, title) => m.(ambientTitle := Some(title))
    case ResetAmbient(_) => m.(statuses := map[], widgets := map[], ambientTitle := None)
    case Notify(_, _, _) => m
    case EditorText(_) => m
  }

  function Without(rs: seq<Request>, id: string): seq<Request> {
    if rs == [] then [] else if rs[0].requestId == id then Without(rs[1..], id) else [rs[0]] + Without(rs[1..], id)
  }

  function Dequeue(q: seq<Queued>, id: string): seq<Queued> {
    if q == [] then [] else if q[0].id == id then Dequeue(q[1..], id) else [q[0]] + Dequeue(q[1..], id)
  }

  function FoldMeta(m: Meta, body: Body): Meta {
    match body
    case SessionOpened(p) => ApplySnapshot(m, p)
    case SessionUpdated(p) => ApplySnapshot(m, p)
    case RunCompleted(p, _, _) => ApplySnapshot(m, p)
    case QueuedMessageStarted(q) => m.(queued := Dequeue(m.queued, q.id))
    case QueueUpdated(messages) => m.(queued := messages)
    case UsageUpdated(usage) => m.(fields := m.fields[Usage := usage])
    case RunFailed(_) => m.(status := Failed)
    case HostUiRequest(request) => ApplyRequest(m, request)
    case HostUiResolved(id) => m.(approvals := Without(m.approvals, id))
    case SessionClosed(failed) => m.(status := if failed then Failed else Idle)
    case _ => m
  }

  // --- The reducer: what each event does to one transcript ---------------------

  function FoldItems(items: seq<Item>, ts: string, body: Body): seq<Item> {
    match body
    case SessionOpened(p) => if p.status != Active then CloseOpen(items, ts) else items
    case SessionUpdated(p) => if p.status != Active then CloseOpen(items, ts) else items
    case RunCompleted(p, user, assistant) =>
      var closed := if p.status != Active then CloseOpen(items, ts) else items;
      StampLast(StampLast(InterruptTools(closed, ts), false, assistant), true, user)
    case UserMessage(id, text, extra, entryId) => CloseOpen(items, "") + [User(Given(id), text, extra, ts, entryId)]
    case CustomMessage(id, customType, text, display, boundary) =>
      CloseOpen(items, "") + [Inject(Given(id), customType, text, display, boundary, ts)]
    case QueuedMessageStarted(q) => CloseOpen(items, "") + [User(Given(q.id), q.text, q.extra, q.createdAt, None)]
    case AssistantDelta(text, channel, entryId) => AppendDelta(items, ts, text, channel, entryId)
    case ToolStarted(callId, name, input) =>
      CloseOpen(items, "") + [Tool(Given(callId), name, input, None, None, None, None, Running, ts, None)]
    case ToolUpdated(callId, note, progress) =>
      var i := FindTool(items, callId);
      if i == |items| then items else
        var t := items[i];
        items[i := t.(note := if note.Some? then note else t.note, progress := if progress.Some? then progress else t.progress)]
    case ToolFinished(callId, success, interrupted, output, images) =>
      var i := FindTool(items, callId);
      if i == |items| then items else
        var t := items[i];
        items[i := t.(status := if interrupted then Interrupted else if success then Ok else Error, output := output,
                      images := if images.Some? then images else t.images, finishedAt := Some(ts))]
    case RunFailed(error) => InterruptTools(CloseOpen(items, ""), ts) + [Notice(ErrAt(ts), Severe, error)]
    case HostUiRequest(request) =>
      if request.Notify?
      then CloseOpen(items, "") + [Notice(Given(request.requestId), if request.level.Some? then request.level.value else Info, request.message)]
      else items
    case CompatibilityIssue(text) => CloseOpen(items, "") + [Notice(CompatAt(ts), Warning, text)]
    case SessionClosed(_) => InterruptTools(CloseOpen(items, ts), ts)
    case SessionReset => []
    case _ => items
  }

  // --- Nested transcripts ----------------------------------------------------

  const FreshNested := Nested([], false, 0, Loading, None, NestedRunning)

  function Stream(s: State, handle: string): Nested {
    if handle in s.nested then s.nested[handle] else FreshNested
  }

  const SUBAGENT_TRANSCRIPT_LIMIT := 64 * 1024

  /** `text.slice(-n)`. */
  function Suffix(text: string, n: nat): string {
    if |text| <= n then text else text[|text| - n..]
  }

  function SuffixJson(j: Option<Json>, n: nat): Option<Json> {
    if j.Some? && j.value.Text? then Some(Text(Suffix(j.value.text, n))) else j
  }

  function SuffixAll(images: seq<string>, n: nat): seq<string> {
    seq(|images|, i requires 0 <= i < |images| => Suffix(images[i], n))
  }

  function BoundItem(item: Item): Item {
    match item
    case User(_, _, _, _, _) => item
    case Assistant(_, text, thinking, _, _, _, _) => item.(text := Suffix(text, 8192), thinking := Suffix(thinking, 8192))
    case Notice(_, _, message) => item.(message := Suffix(message, 8192))
    case Inject(_, _, content, _, _, _) => item.(content := Suffix(content, 8192))
    case Tool(_, _, input, output, images, note, _, _, _, _) =>
      item.(note := if note.Some? then Some(Suffix(note.value, 4096)) else note,
            input := SuffixJson(input, 8192), output := SuffixJson(output, 8192),
            images := if images.Some? then Some(SuffixAll(images.value, 16384)) else images)
  }

  function Bounded(items: seq<Item>): seq<Item> {
    seq(|items|, i requires 0 <= i < |items| => BoundItem(items[i]))
  }

  function PlaceholderJson(j: Option<Json>, cut: string): Option<Json> {
    if j.None? then None else if j.value.Text? then Some(Text(Suffix(j.value.text, 1024))) else Some(Text(cut))
  }

  function Placeholder(item: Item): Item {
    if !(item.Tool? && item.status == Running) then item else
      var images := if item.images.None? then None
                    else if item.images.value == [] then Some([])
                    else Some([Suffix(item.images.value[0], 1024)]);
      item.(input := PlaceholderJson(item.input, "[input truncated]"),
            output := PlaceholderJson(item.output, "[output truncated]"),
            images := images,
            note := if item.note.Some? then Some(Suffix(item.note.value, 1024)) else None)
  }

  /** Index of the oldest item that may be evicted, or the length of the list. */
  function FirstEvictable(items: seq<Item>): (i: nat)
    ensures i <= |items|
    ensures i < |items| ==> !(items[i].Tool? && items[i].status == Running)
    ensures forall k :: 0 <= k < i ==> items[k].Tool? && items[k].status == Running
  {
    if items == [] then 0
    else if items[0].Tool? && items[0].status == Running then 1 + FirstEvictable(items[1..])
    else 0
  }

  datatype Reducer = Reducer(size: seq<Item> -> nat) {

    function Evict(items: seq<Item>): (seq<Item>, bool)
      decreases |items|
    {
      if size(items) <= SUBAGENT_TRANSCRIPT_LIMIT then (items, false) else
        var i := FirstEvictable(items);
        if i < |items| then (Evict(items[..i] + items[i + 1..]).0, true)
        else (seq(|items|, k requires 0 <= k < |items| => Placeholder(items[k])), true)
    }

    function Retain(t: Nested): Nested {
      var (kept, cut) := Evict(Bounded(t.items));
      t.(items := kept, truncated := t.truncated || cut, retainedBytes := size(kept))
    }

    /** Fold an event of a nested stream. The reducer runs on a shallow copy of the session, which shares the
        approvals array and the ambient object with it: what a request changes in place on those reaches the
        session, and what an event replaces (the filtered approvals, a fresh ambient object) does not. */
    function FoldNested(s: State, handle: string, e: Event): State {
      var t := Stream(s, handle);
      var run := match e.body
        case RunFailed(_) => NestedFailed
        case SessionClosed(failed) => if failed then NestedFailed else NestedClosed
        case AssistantDelta(_, _, _) => NestedRunning
        case ToolStarted(_, _, _) => NestedRunning
        case _ => t.run;
      var kept := Retain(t.(items := FoldItems(t.items, e.ts, e.body), run := run, replay := Available));
      var inPlace := e.body.HostUiRequest? && !e.body.request.ResetAmbient?;
      s.(meta := if inPlace then FoldMeta(s.meta, e.body) else s.meta, nested := s.nested[handle := kept])
    }

    /** `foldEvent`. */
    function Fold(s: State, e: Event): State {
      match e.body
      case NestedReplayStatus(h, replay, reason) =>
        s.(nested := s.nested[h := Stream(s, h).(replay := replay, replayReason := reason)])
      case _ =>
        if e.handle.Some? then FoldNested(s, e.handle.value, e)
        else State(FoldMeta(s.meta, e.body), FoldItems(s.items, e.ts, e.body), if e.body.SessionReset? then map[] else s.nested)
    }
  }
}
