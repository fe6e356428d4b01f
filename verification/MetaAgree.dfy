/**
 When the hub's metadata and the client's agree. The hub applies every event; a client applies a subagent's event to
 the session's metadata only where it changes it in place. Each field follows its last writer, so the two agree
 exactly when the last writers do.
 */
module MetaAgree {
  import opened Options
  import opened Logs
  import opened MetaSeed
  import opened Reset
  import opened Transcript

  // --- What the client folds of the log ---------------------------------------------

  /** A client's metadata can follow this event. */
  predicate Reaches(e: Event) {
    e.handle.None? || (e.body.HostUiRequest? && !e.body.request.ResetAmbient?)
  }

  function Visible(es: seq<Event>): seq<Event> {
    if es == [] then []
    else Visible(es[..|es| - 1]) + if Reaches(es[|es| - 1]) then [es[|es| - 1]] else []
  }

  lemma ShownLinesStep(lines: map<string, string>, key: string, line: string)
    ensures line != "" ==> ShownLines(lines)[key := line] == ShownLines(lines[key := line])
    ensures ShownLines(lines) - {key} == ShownLines(lines - {key}) == ShownLines(lines[key := ""])
  {
  }

  lemma ShownLine(m: Meta, e: Event)
    requires e.body.HostUiRequest? && e.body.request.StatusLine?
    ensures FoldMeta(Shown(m), e.body) == Shown(ServerStep(m, e))
  {
    hide ShownLines;
    var line := e.body.request.line;
    ShownLinesStep(m.statuses, e.body.request.key, if line.Some? then line.value else "");
  }

  lemma RequestKeepsLines(m: Meta, lines: map<string, string>, q: Request)
    requires !q.StatusLine? && !q.ResetAmbient?
    ensures ApplyRequest(m.(statuses := lines), q) == ApplyRequest(m, q).(statuses := lines)
    ensures ApplyRequest(m, q).statuses == m.statuses
  {
    hide Pending;
  }

  lemma ShownRequest(m: Meta, e: Event)
    requires e.body.HostUiRequest?
    ensures FoldMeta(Shown(m), e.body) == Shown(ServerStep(m, e))
  {
    if e.body.request.StatusLine? {
      hide FoldMeta, Shown, ServerStep;
      ShownLine(m, e);
    } else if e.body.request.ResetAmbient? {
      assert ShownLines(map[]) == map[];
      hide ShownLines;
    } else {
      hide ShownLines, ApplyRequest;
      RequestKeepsLines(m, ShownLines(m.statuses), e.body.request);
    }
  }

  lemma OthersKeepLines(m: Meta, lines: map<string, string>, body: Body)
    requires !body.HostUiRequest?
    ensures FoldMeta(m.(statuses := lines), body) == FoldMeta(m, body).(statuses := lines)
    ensures FoldMeta(m, body).statuses == m.statuses
  {
    hide ApplyRequest, Without, Dequeue;
  }

  lemma ShownStep(m: Meta, e: Event)
    ensures FoldMeta(Shown(m), e.body) == Shown(ServerStep(m, e))
  {
    hide ShownLines, FoldMeta;
    if e.body.HostUiRequest? { ShownRequest(m, e); } else { OthersKeepLines(m, ShownLines(m.statuses), e.body); }
  }

  lemma FoldKeepsMeta(r: Reducer, s: State, e: Event)
    ensures r.Fold(s, e).meta == if Reaches(e) then FoldMeta(s.meta, e.body) else s.meta
  {
  }

  /** For every log, the client's metadata is what the hub would show of the visible part of it. */
  lemma {:induction false} ClientFoldsVisible(r: Reducer, es: seq<Event>)
    ensures FoldAll(r.Fold, Initial, es).meta == Shown(ServerMeta(Visible(es)))
  {
    if es == [] {
      assert Shown(InitialMeta).statuses == map[];
    } else {
      var init, e := es[..|es| - 1], es[|es| - 1];
      ClientFoldsVisible(r, init);
      FoldKeepsMeta(r, FoldAll(r.Fold, Initial, init), e);
      if !Reaches(e) {
        assert Visible(es) == Visible(init);
      } else {
        FoldAllPush(ServerStep, InitialMeta, Visible(init), e);
        hide FoldMeta, ServerStep, Shown;
        ShownStep(ServerMeta(Visible(init)), e);
      }
    }
  }

  lemma {:induction false} PlainIsVisible(es: seq<Event>)
    requires forall i :: 0 <= i < |es| ==> es[i].handle.None?
    ensures Visible(es) == es
  {
    if es != [] { PlainIsVisible(es[..|es| - 1]); }
  }

  // --- Last writer wins --------------------------------------------------------------

  datatype Slot =
    | RefSlot | TitleSlot | StatusSlot | FieldSlot(field: MetaField) | GoalSlot
    | LineSlot(key: string) | WidgetSlot(key: string) | AmbientTitleSlot

  datatype Cell = Absent | Str(text: string) | Stat(status: SessionStatus) | Wid(widget: Widget)

  function Str0(t: Option<string>): Cell {
    if t.Some? then Str(t.value) else Absent
  }

  function Get(m: Meta, slot: Slot): Cell {
    match slot
    case RefSlot => Str0(m.ref)
    case TitleSlot => Str(m.title)
    case StatusSlot => Stat(m.status)
    case FieldSlot(f) => if f in m.fields then Str(m.fields[f]) else Absent
    case GoalSlot => Str0(m.goal)
    case LineSlot(k) => if k in m.statuses && m.statuses[k] != "" then Str(m.statuses[k]) else Absent
    case WidgetSlot(k) => if k in m.widgets then Wid(m.widgets[k]) else Absent
    case AmbientTitleSlot => Str0(m.ambientTitle)
  }

  function WrittenBySnapshot(p: Snapshot, slot: Slot): Option<Cell> {
    match slot
    case RefSlot => Some(Str(p.ref))
    case TitleSlot => Some(Str(p.title))
    case StatusSlot => Some(Stat(p.status))
    case FieldSlot(f) => if f in p.fields then Some(Str(p.fields[f])) else None
    case GoalSlot => (match p.goal case KeepGoal => None case ClearGoal => Some(Absent) case SetGoal(g) => Some(Str(g)))
    case _ => None
  }

  function WrittenByRequest(q: Request, slot: Slot): Option<Cell> {
    match q
    case StatusLine(_, key, line) =>
      if slot != LineSlot(key) then None else if line.Some? && line.value != "" then Some(Str(line.value)) else Some(Absent)
    case WidgetLines(_, key, lines, placement) =>
      if slot != WidgetSlot(key) then None
      else if lines.Some? && lines.value != []
      then Some(Wid(Widget(key, lines.value, if placement.Some? then placement.value else AboveComposer)))
      else Some(Absent)
    case TitleText(_, title) => if slot == AmbientTitleSlot then Some(Str(title)) else None
    case ResetAmbient(_) => if slot.LineSlot? || slot.WidgetSlot? || slot.AmbientTitleSlot? then Some(Absent) else None
    case _ => None
  }

  /** What an event writes to a slot, if anything. */
  function Written(body: Body, slot: Slot): Option<Cell> {
    match body
    case SessionOpened(p) => WrittenBySnapshot(p, slot)
    case SessionUpdated(p) => WrittenBySnapshot(p, slot)
    case RunCompleted(p, _, _) => WrittenBySnapshot(p, slot)
    case UsageUpdated(usage) => if slot == FieldSlot(Usage) then Some(Str(usage)) else None
    case RunFailed(_) => if slot == StatusSlot then Some(Stat(Failed)) else None
    case SessionClosed(failed) => if slot == StatusSlot then Some(Stat(if failed then Failed else Idle)) else None
    case HostUiRequest(q) => WrittenByRequest(q, slot)
    case _ => None
  }

  /** What a session shows before anything is written. */
  function Unwritten(slot: Slot): Cell {
    match slot
    case TitleSlot => Str("")
    case StatusSlot => Stat(Idle)
    case FieldSlot(f) =>
      (match f case Config => Str("{}") case Flags => Str("[]") case Todos => Str("[]") case McpServers => Str("[]") case _ => Absent)
    case _ => Absent
  }

  /** What the last event that writes the slot left there. */
  function LastWrite(es: seq<Event>, slot: Slot): Cell {
    if es == [] then Unwritten(slot)
    else
      var w := Written(es[|es| - 1].body, slot);
      if w.Some? then w.value else LastWrite(es[..|es| - 1], slot)
  }

  lemma SnapshotWrites(m: Meta, p: Snapshot, slot: Slot)
    ensures Get(ApplySnapshot(m, p), slot) == var w := WrittenBySnapshot(p, slot); if w.Some? then w.value else Get(m, slot)
  {
  }

  lemma LineWrites(m: Meta, id: string, key: string, line: Option<string>, slot: Slot)
    ensures Get(ApplyRequest(m, StatusLine(id, key, line)), slot)
         == var w := WrittenByRequest(StatusLine(id, key, line), slot); if w.Some? then w.value else Get(m, slot)
    ensures line == Some("") ==>
      (Get(m.(statuses := m.statuses[key := ""]), slot)
       == var w := WrittenByRequest(StatusLine(id, key, line), slot); if w.Some? then w.value else Get(m, slot))
  {
  }

  lemma RequestWrites(m: Meta, q: Request, slot: Slot)
    requires !q.StatusLine?
    ensures Get(ApplyRequest(m, q), slot) == var w := WrittenByRequest(q, slot); if w.Some? then w.value else Get(m, slot)
  {
  }

  lemma RequestStepWrites(m: Meta, e: Event, slot: Slot)
    requires e.body.HostUiRequest?
    ensures Get(ServerStep(m, e), slot) == var w := WrittenByRequest(e.body.request, slot); if w.Some? then w.value else Get(m, slot)
  {
    hide ApplyRequest, Get, WrittenByRequest;
    if e.body.request.StatusLine? {
      LineWrites(m, e.body.request.requestId, e.body.request.key, e.body.request.line, slot);
    } else {
      RequestWrites(m, e.body.request, slot);
    }
  }

  lemma SnapshotStepWrites(m: Meta, e: Event, p: Snapshot, slot: Slot)
    requires e.body == SessionOpened(p) || e.body == SessionUpdated(p) || (e.body.RunCompleted? && e.body.snapshot == p)
    ensures Get(ServerStep(m, e), slot) == var w := WrittenBySnapshot(p, slot); if w.Some? then w.value else Get(m, slot)
  {
    hide ApplySnapshot, Get, WrittenBySnapshot;
    SnapshotWrites(m, p, slot);
  }

  predicate IsSnapshot(body: Body) {
    body.SessionOpened? || body.SessionUpdated? || body.RunCompleted?
  }

  lemma OtherStepWrites(m: Meta, e: Event, slot: Slot)
    requires !IsSnapshot(e.body) && !e.body.HostUiRequest?
    ensures Get(ServerStep(m, e), slot) == var w := Written(e.body, slot); if w.Some? then w.value else Get(m, slot)
  {
    hide ApplySnapshot, ApplyRequest, Without, Dequeue;
  }

  lemma StepWrites(m: Meta, e: Event, slot: Slot)
    ensures Get(ServerStep(m, e), slot) == var w := Written(e.body, slot); if w.Some? then w.value else Get(m, slot)
  {
    if IsSnapshot(e.body) {
      hide ServerStep, Get, WrittenBySnapshot;
      SnapshotStepWrites(m, e, e.body.snapshot, slot);
    } else if e.body.HostUiRequest? {
      hide ServerStep, Get, WrittenByRequest;
      RequestStepWrites(m, e, slot);
    } else {
      hide ServerStep, Get, Written;
      OtherStepWrites(m, e, slot);
    }
  }

  lemma {:induction false} LastWriterWins(es: seq<Event>, slot: Slot)
    ensures Get(ServerMeta(es), slot) == LastWrite(es, slot)
  {
    if es != [] {
      hide ServerStep, Get, Written;
      LastWriterWins(es[..|es| - 1], slot);
      StepWrites(ServerMeta(es[..|es| - 1]), es[|es| - 1], slot);
    }
  }

  // --- The queue: the last list given, less what has started since ------------------------

  function Minus(q: seq<Queued>, gone: set<string>): seq<Queued> {
    if q == [] then [] else if q[0].id in gone then Minus(q[1..], gone) else [q[0]] + Minus(q[1..], gone)
  }

  function GivenQueue(body: Body): Option<seq<Queued>> {
    match body
    case SessionOpened(p) => p.queued
    case SessionUpdated(p) => p.queued
    case RunCompleted(p, _, _) => p.queued
    case QueueUpdated(messages) => Some(messages)
    case _ => None
  }

  function LastQueue(es: seq<Event>, gone: set<string>): seq<Queued> {
    if es == [] then []
    else
      var init, body := es[..|es| - 1], es[|es| - 1].body;
      if GivenQueue(body).Some? then Minus(GivenQueue(body).value, gone)
      else if body.QueuedMessageStarted? then LastQueue(init, gone + {body.entry.id})
      else LastQueue(init, gone)
  }

  lemma {:induction false} MinusDequeue(q: seq<Queued>, id: string, gone: set<string>)
    ensures Minus(Dequeue(q, id), gone) == Minus(q, gone + {id})
  {
    if q != [] { MinusDequeue(q[1..], id, gone); }
  }

  lemma {:induction false} MinusNone(q: seq<Queued>)
    ensures Minus(q, {}) == q
  {
    if q != [] { MinusNone(q[1..]); }
  }

  lemma QueueStep(m: Meta, e: Event)
    ensures ServerStep(m, e).queued ==
      if GivenQueue(e.body).Some? then GivenQueue(e.body).value
      else if e.body.QueuedMessageStarted? then Dequeue(m.queued, e.body.entry.id) else m.queued
  {
  }

  lemma {:induction false} QueueFollows(es: seq<Event>, gone: set<string>)
    ensures Minus(ServerMeta(es).queued, gone) == LastQueue(es, gone)
  {
    if es != [] {
      hide ServerStep, Minus;
      var init, e := es[..|es| - 1], es[|es| - 1];
      QueueStep(ServerMeta(init), e);
      if e.body.QueuedMessageStarted? {
        QueueFollows(init, gone + {e.body.entry.id});
        MinusDequeue(ServerMeta(init).queued, e.body.entry.id, gone);
      } else {
        QueueFollows(init, gone);
      }
    }
  }

  // --- Dialogs: each id's first request since it was last resolved ---------------------------

  predicate AsksAt(es: seq<Event>, i: nat, id: string)
    requires i < |es|
  {
    es[i].body.HostUiRequest? && es[i].body.request.Dialog? && es[i].body.request.requestId == id
  }

  predicate Unresolved(es: seq<Event>, i: nat, id: string)
    requires i < |es|
  {
    AsksAt(es, i, id) && forall k :: i < k < |es| ==> es[k].body != HostUiResolved(id)
  }

  predicate Stands(es: seq<Event>, i: nat)
    requires i < |es|
  {
    && es[i].body.HostUiRequest? && es[i].body.request.Dialog?
    && var id := es[i].body.request.requestId;
       Unresolved(es, i, id) && forall j :: 0 <= j < i ==> !Unresolved(es, j, id)
  }

  /** The standing requests among the first n events. */
  function Standing(es: seq<Event>, n: nat): seq<Request>
    requires n <= |es|
  {
    if n == 0 then [] else Standing(es, n - 1) + if Stands(es, n - 1) then [es[n - 1].body.request] else []
  }

  lemma UnresolvedPush(es: seq<Event>, e: Event, i: nat, id: string)
    requires i < |es|
    ensures Unresolved(es + [e], i, id) <==> Unresolved(es, i, id) && e.body != HostUiResolved(id)
  {
    var t := es + [e];
    assert t[|es|] == e;
    assert forall k :: 0 <= k < |es| ==> t[k] == es[k];
  }

  lemma StandsPush(es: seq<Event>, e: Event, i: nat)
    requires i < |es|
    ensures Stands(es + [e], i) <==> Stands(es, i) && e.body != HostUiResolved(es[i].body.request.requestId)
  {
    var t := es + [e];
    assert t[i] == es[i];
    if es[i].body.HostUiRequest? && es[i].body.request.Dialog? {
      var id := es[i].body.request.requestId;
      forall j | 0 <= j <= i
        ensures Unresolved(t, j, id) <==> Unresolved(es, j, id) && e.body != HostUiResolved(id)
      {
        UnresolvedPush(es, e, j, id);
      }
      hide Unresolved;
    }
  }

  lemma WithoutCons(x: Request, rest: seq<Request>, id: string)
    ensures Without([x] + rest, id) == (if x.requestId == id then [] else [x]) + Without(rest, id)
  {
    assert ([x] + rest)[1..] == rest;
  }

  lemma {:induction false} WithoutConcat(a: seq<Request>, b: seq<Request>, id: string)
    ensures Without(a + b, id) == Without(a, id) + Without(b, id)
  {
    if a == [] {
      assert a + b == b;
    } else {
      var x, rest := a[0], a[1..];
      assert a == [x] + rest && a + b == [x] + (rest + b);
      WithoutConcat(rest, b, id);
      hide Without;
      WithoutCons(x, rest, id);
      WithoutCons(x, rest + b, id);
    }
  }

  lemma WithoutOne(q: Request, id: string)
    ensures Without([q], id) == if q.requestId == id then [] else [q]
  {
  }

  lemma {:induction false} StandingPush(es: seq<Event>, e: Event, n: nat)
    requires n <= |es|
    ensures Standing(es + [e], n)
         == if e.body.HostUiResolved? then Without(Standing(es, n), e.body.requestId) else Standing(es, n)
  {
    if n > 0 {
      StandingPush(es, e, n - 1);
      StandsPush(es, e, n - 1);
      assert (es + [e])[n - 1] == es[n - 1];
      if e.body.HostUiResolved? {
        var last := if Stands(es, n - 1) then [es[n - 1].body.request] else [];
        hide Stands;
        WithoutConcat(Standing(es, n - 1), last, e.body.requestId);
        if last != [] { WithoutOne(last[0], e.body.requestId); }
      }
    }
  }

  /** An unresolved request has a standing one for the same id, no later than itself. */
  lemma {:induction false} FirstStands(es: seq<Event>, i: nat, id: string) returns (j: nat)
    requires i < |es| && Unresolved(es, i, id)
    ensures j <= i && Stands(es, j) && es[j].body.request.requestId == id
  {
    if k: nat :| k < i && Unresolved(es, k, id) {
      j := FirstStands(es, k, id);
    } else {
      j := i;
    }
  }

  lemma {:induction false} StandingHas(es: seq<Event>, n: nat, id: string)
    requires n <= |es|
    ensures Pending(Standing(es, n), id) <==>
            exists i :: 0 <= i < n && Stands(es, i) && es[i].body.request.requestId == id
  {
    if n > 0 {
      hide Stands;
      StandingHas(es, n - 1, id);
      var a := Standing(es, n - 1);
      var b := Standing(es, n);
      if Pending(a, id) {
        var i :| 0 <= i < |a| && a[i].requestId == id;
        assert b[i].requestId == id;
      }
      if Stands(es, n - 1) { assert b[|a|] == es[n - 1].body.request; }
    }
  }

  /** A new request stands exactly when its id is not pending. */
  lemma NewStands(es: seq<Event>, e: Event)
    requires e.body.HostUiRequest? && e.body.request.Dialog?
    ensures Stands(es + [e], |es|) <==> !Pending(Standing(es, |es|), e.body.request.requestId)
  {
    var id := e.body.request.requestId;
    StandingHas(es, |es|, id);
    forall j | 0 <= j < |es|
      ensures Unresolved(es + [e], j, id) <==> Unresolved(es, j, id)
    {
      UnresolvedPush(es, e, j, id);
    }
    assert (es + [e])[|es|] == e;
    if !Stands(es + [e], |es|) {
      var j :| 0 <= j < |es| && Unresolved(es, j, id);
      var k := FirstStands(es, j, id);
    }
  }

  lemma ApprovalsStep(m: Meta, e: Event)
    ensures ServerStep(m, e).approvals ==
      if e.body.HostUiResolved? then Without(m.approvals, e.body.requestId)
      else if e.body.HostUiRequest? && e.body.request.Dialog? && !Pending(m.approvals, e.body.request.requestId)
      then m.approvals + [e.body.request] else m.approvals
  {
  }

  lemma {:induction false} DialogsStand(es: seq<Event>)
    ensures ServerMeta(es).approvals == Standing(es, |es|)
  {
    if es != [] {
      var init, e := es[..|es| - 1], es[|es| - 1];
      hide ServerStep, Stands, Without;
      DialogsStand(init);
      ApprovalsStep(ServerMeta(init), e);
      assert es == init + [e];
      StandingPush(init, e, |init|);
      if e.body.HostUiRequest? && e.body.request.Dialog? { NewStands(init, e); } else { OnlyAskersStand(es, |init|); }
    }
  }

  lemma OnlyAskersStand(es: seq<Event>, i: nat)
    requires i < |es|
    ensures Stands(es, i) ==> es[i].body.HostUiRequest? && es[i].body.request.Dialog?
  {
  }

  // --- Agreement --------------------------------------------------------------------------

  /** Every slot's last writer, the queue and the standing dialogs come out the same without the events no client follows. */
  ghost predicate Agrees(es: seq<Event>) {
    var v := Visible(es);
    && (forall slot :: LastWrite(es, slot) == LastWrite(v, slot))
    && LastQueue(es, {}) == LastQueue(v, {})
    && Standing(es, |es|) == Standing(v, |v|)
  }

  lemma GetShown(m: Meta, slot: Slot)
    ensures Get(Shown(m), slot) == Get(m, slot)
  {
  }

  lemma SameFields(a: Meta, b: Meta)
    requires forall slot :: Get(a, slot) == Get(b, slot)
    ensures a.ref == b.ref && a.title == b.title && a.status == b.status && a.goal == b.goal && a.ambientTitle == b.ambientTitle
    ensures a.fields == b.fields
  {
    assert Get(a, RefSlot) == Get(b, RefSlot) && Get(a, TitleSlot) == Get(b, TitleSlot) && Get(a, StatusSlot) == Get(b, StatusSlot);
    assert Get(a, GoalSlot) == Get(b, GoalSlot) && Get(a, AmbientTitleSlot) == Get(b, AmbientTitleSlot);
    forall f: MetaField
      ensures (f in a.fields <==> f in b.fields) && (f in a.fields ==> a.fields[f] == b.fields[f])
    {
      assert Get(a, FieldSlot(f)) == Get(b, FieldSlot(f));
    }
  }

  lemma SameAmbient(a: Meta, b: Meta)
    requires forall slot :: Get(a, slot) == Get(b, slot)
    ensures ShownLines(a.statuses) == ShownLines(b.statuses) && a.widgets == b.widgets
  {
    forall k: string
      ensures (k in a.widgets <==> k in b.widgets) && (k in a.widgets ==> a.widgets[k] == b.widgets[k])
    {
      assert Get(a, WidgetSlot(k)) == Get(b, WidgetSlot(k));
    }
    forall k: string
      ensures k in ShownLines(a.statuses) <==> k in ShownLines(b.statuses)
      ensures k in ShownLines(a.statuses) ==> ShownLines(a.statuses)[k] == ShownLines(b.statuses)[k]
    {
      assert Get(a, LineSlot(k)) == Get(b, LineSlot(k));
    }
  }

  lemma SameSlots(a: Meta, b: Meta)
    ensures Shown(a) == Shown(b) <==>
            (forall slot :: Get(a, slot) == Get(b, slot)) && a.queued == b.queued && a.approvals == b.approvals
  {
    if Shown(a) == Shown(b) {
      forall slot
        ensures Get(a, slot) == Get(b, slot)
      {
        GetShown(a, slot);
        GetShown(b, slot);
      }
    } else if forall slot :: Get(a, slot) == Get(b, slot) {
      SameFields(a, b);
      SameAmbient(a, b);
    }
  }

  /** After every log, the client's metadata is what the hub's would show if and only if the last writers agree. */
  lemma AgreesExactly(r: Reducer, es: seq<Event>)
    ensures Shown(ServerMeta(es)) == FoldAll(r.Fold, Initial, es).meta <==> Agrees(es)
  {
    hide FoldAll, Shown, Get, LastWrite, LastQueue, Standing, ServerMeta;
    var v := Visible(es);
    ClientFoldsVisible(r, es);
    SameSlots(ServerMeta(es), ServerMeta(v));
    forall slot
      ensures Get(ServerMeta(es), slot) == LastWrite(es, slot) && Get(ServerMeta(v), slot) == LastWrite(v, slot)
    {
      LastWriterWins(es, slot);
      LastWriterWins(v, slot);
    }
    QueueIs(es);
    QueueIs(v);
    DialogsStand(es);
    DialogsStand(v);
  }

  lemma QueueIs(es: seq<Event>)
    ensures ServerMeta(es).queued == LastQueue(es, {})
  {
    hide FoldAll;
    QueueFollows(es, {});
    MinusNone(ServerMeta(es).queued);
  }

  /** Every log without subagent events agrees. */
  lemma PlainAgrees(es: seq<Event>)
    requires forall i :: 0 <= i < |es| ==> es[i].handle.None?
    ensures Agrees(es)
  {
    PlainIsVisible(es);
  }
}
