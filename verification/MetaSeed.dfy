/**
 The two metadata folds and the seed between them. The hub folds with a reducer of its own
 (server/pantoken-protocol/src/state.rs), which reads no subagent handle and keeps empty status lines; a journal that
 restarts is seeded from that metadata (meta_seed_events in server/pantoken-server/src/journal.rs), and clients fold
 the seed with theirs.
 */
module MetaSeed {
  import opened Options
  import opened Logs
  import opened Reset
  import opened Transcript

  // --- The two folds ---------------------------------------------------------

  /** The client's fold of an event of the session's own stream. */
  function ClientStep(m: Meta, e: Event): Meta {
    FoldMeta(m, e.body)
  }

  predicate EmptyLine(body: Body) {
    body.HostUiRequest? && body.request.StatusLine? && body.request.line == Some("")
  }

  /** The hub's fold of an event, whatever stream it belongs to. */
  function ServerStep(m: Meta, e: Event): Meta {
    if EmptyLine(e.body) then m.(statuses := m.statuses[e.body.request.key := ""]) else FoldMeta(m, e.body)
  }

  function Stepper(server: bool): (Meta, Event) -> Meta {
    if server then ServerStep else ClientStep
  }

  function ServerMeta(es: seq<Event>): Meta {
    FoldAll(ServerStep, InitialMeta, es)
  }

  /** What a client shows of the hub's metadata: a status line that is empty is not there. */
  function Shown(m: Meta): Meta {
    m.(statuses := ShownLines(m.statuses))
  }

  function ShownLines(lines: map<string, string>): map<string, string> {
    map k | k in lines && lines[k] != "" :: lines[k]
  }

  lemma {:induction false} ServerMetaSeedable(es: seq<Event>)
    ensures Seedable(ServerMeta(es))
  {
    if es != [] {
      hide FoldMeta;
      var init, e := es[..|es| - 1], es[|es| - 1];
      ServerMetaSeedable(init);
      FoldMetaSeedable(ServerMeta(init), e.body);
    }
  }

  // --- The seed ------------------------------------------------------------------

  function Ui(ts: string, request: Request): Event {
    Event(ts, None, HostUiRequest(request))
  }

  function StatusSeeds(m: Meta, ts: string, keys: seq<string>): seq<Event>
    requires forall k :: k in keys ==> k in m.statuses
  {
    seq(|keys|, i requires 0 <= i < |keys| =>
      Ui(ts, StatusLine("meta-status-" + keys[i], keys[i], Some(m.statuses[keys[i]]))))
  }

  function WidgetSeeds(m: Meta, ts: string, keys: seq<string>): seq<Event>
    requires forall k :: k in keys ==> k in m.widgets
  {
    seq(|keys|, i requires 0 <= i < |keys| =>
      var w := m.widgets[keys[i]];
      Ui(ts, WidgetLines("meta-widget-" + w.key, w.key, Some(w.lines), Some(w.placement))))
  }

  function TitleSeeds(m: Meta, ts: string): seq<Event> {
    if m.ambientTitle.Some? then [Ui(ts, TitleText("meta-title", m.ambientTitle.value))] else []
  }

  function ApprovalSeeds(m: Meta, ts: string): seq<Event> {
    seq(|m.approvals|, i requires 0 <= i < |m.approvals| => Ui(ts, m.approvals[i]))
  }

  /** The snapshot that carries the projected meta fields; `ref` is the event's session when the state has none. */
  function MetaSnapshot(m: Meta, ref: string): Snapshot {
    Snapshot(if m.ref.Some? then m.ref.value else ref, m.title, m.status, m.fields,
             if m.goal.Some? then SetGoal(m.goal.value) else KeepGoal, Some(m.queued))
  }

  /** `meta_seed_events`. The hash maps are walked in an order of their own choosing, given by the two key lists. */
  function MetaSeedEvents(m: Meta, ref: string, ts: string, statusKeys: seq<string>, widgetKeys: seq<string>): seq<Event>
    requires forall k :: k in statusKeys ==> k in m.statuses
    requires forall k :: k in widgetKeys ==> k in m.widgets
  {
    [Event(ts, None, SessionOpened(MetaSnapshot(m, ref)))]
    + StatusSeeds(m, ts, statusKeys)
    + WidgetSeeds(m, ts, widgetKeys)
    + TitleSeeds(m, ts)
    + ApprovalSeeds(m, ts)
  }

  /** The parts of a seed that no fold shows: requests of the session's own, with ids of their own, and a goal only where there
      is one. */
  lemma SeedParts(m: Meta, ref: string, ts: string, statusKeys: seq<string>, widgetKeys: seq<string>)
    requires forall k :: k in statusKeys ==> k in m.statuses
    requires forall k :: k in widgetKeys ==> k in m.widgets
    ensures MetaSnapshot(m, ref).goal.KeepGoal? <==> m.goal == None
    ensures forall i :: 0 <= i < |statusKeys| ==>
      var e := StatusSeeds(m, ts, statusKeys)[i];
      e.ts == ts && e.handle == None && e.body.HostUiRequest? && e.body.request.requestId == "meta-status-" + statusKeys[i]
    ensures forall i :: 0 <= i < |widgetKeys| ==>
      var e := WidgetSeeds(m, ts, widgetKeys)[i];
      && e.ts == ts && e.handle == None && e.body.HostUiRequest?
      && e.body.request.requestId == "meta-widget-" + m.widgets[widgetKeys[i]].key
    ensures forall i :: 0 <= i < |TitleSeeds(m, ts)| ==>
      var e := TitleSeeds(m, ts)[i]; e.ts == ts && e.handle == None && e.body.HostUiRequest? && e.body.request.requestId == "meta-title"
    ensures forall i :: 0 <= i < |ApprovalSeeds(m, ts)| ==>
      ApprovalSeeds(m, ts)[i].ts == ts && ApprovalSeeds(m, ts)[i].handle == None
  {
  }

  /** `m` under the session name its seed gives it. */
  function Named(m: Meta, ref: string): Meta {
    m.(ref := Some(if m.ref.Some? then m.ref.value else ref))
  }

  // --- Folding the seed -------------------------------------------------------------

  /** `base` overwritten at each of `keys` with the value `src` has there. */
  function Adopt<V>(base: map<string, V>, src: map<string, V>, keys: seq<string>): map<string, V>
    requires forall k :: k in keys ==> k in src
  {
    if keys == [] then base else
      var n := |keys| - 1;
      Adopt(base, src, keys[..n])[keys[n] := src[keys[n]]]
  }

  lemma {:induction false} AdoptAt<V>(src: map<string, V>, keys: seq<string>)
    requires forall k :: k in keys <==> k in src
    ensures Adopt(map[], src, keys) == src
  {
    AdoptSome(src, keys);
  }

  lemma {:induction false} AdoptSome<V>(src: map<string, V>, keys: seq<string>)
    requires forall k :: k in keys ==> k in src
    ensures forall k :: k in Adopt(map[], src, keys) <==> k in keys
    ensures forall k :: k in keys ==> Adopt(map[], src, keys)[k] == src[k]
  {
    if keys != [] {
      AdoptSome(src, keys[..|keys| - 1]);
    }
  }

  /** The status lines of `src`, seeded to a client or to the hub: for a client an empty one deletes its key. */
  function AdoptLines(server: bool, base: map<string, string>, src: map<string, string>, keys: seq<string>): map<string, string>
    requires forall k :: k in keys ==> k in src
  {
    if keys == [] then base else
      var n := |keys| - 1;
      var lines := AdoptLines(server, base, src, keys[..n]);
      if src[keys[n]] == "" && !server then lines - {keys[n]} else lines[keys[n] := src[keys[n]]]
  }

  lemma {:induction false} AdoptLinesAt(server: bool, src: map<string, string>, keys: seq<string>)
    requires forall k :: k in keys ==> k in src
    ensures forall k :: k in AdoptLines(server, map[], src, keys) <==> k in keys && (server || src[k] != "")
    ensures forall k :: k in AdoptLines(server, map[], src, keys) ==> AdoptLines(server, map[], src, keys)[k] == src[k]
  {
    if keys != [] {
      AdoptLinesAt(server, src, keys[..|keys| - 1]);
    }
  }

  lemma StatusSeedStep(server: bool, m: Meta, ts: string, id: string, key: string, line: string)
    ensures Stepper(server)(m, Ui(ts, StatusLine(id, key, Some(line))))
         == m.(statuses := if line == "" && !server then m.statuses - {key} else m.statuses[key := line])
  {
  }

  lemma WidgetSeedStep(server: bool, m: Meta, ts: string, id: string, w: Widget)
    requires w.lines != []
    ensures Stepper(server)(m, Ui(ts, WidgetLines(id, w.key, Some(w.lines), Some(w.placement))))
         == m.(widgets := m.widgets[w.key := w])
  {
  }

  lemma ApprovalSeedStep(server: bool, m: Meta, ts: string, request: Request)
    requires request.Dialog? && !Pending(m.approvals, request.requestId)
    ensures Stepper(server)(m, Ui(ts, request)) == m.(approvals := m.approvals + [request])
  {
  }

  lemma {:induction false} StatusSeedsFold(server: bool, m0: Meta, m: Meta, ts: string, keys: seq<string>)
    requires forall k :: k in keys ==> k in m.statuses
    ensures FoldAll(Stepper(server), m0, StatusSeeds(m, ts, keys))
         == m0.(statuses := AdoptLines(server, m0.statuses, m.statuses, keys))
    decreases |keys|
  {
    if keys != [] {
      hide Stepper;
      var n := |keys| - 1;
      assert StatusSeeds(m, ts, keys)[..n] == StatusSeeds(m, ts, keys[..n]);
      StatusSeedsFold(server, m0, m, ts, keys[..n]);
      var before := m0.(statuses := AdoptLines(server, m0.statuses, m.statuses, keys[..n]));
      StatusSeedStep(server, before, ts, "meta-status-" + keys[n], keys[n], m.statuses[keys[n]]);
    }
  }

  lemma {:induction false} WidgetSeedsFold(server: bool, m0: Meta, m: Meta, ts: string, keys: seq<string>)
    requires Seedable(m) && forall k :: k in keys ==> k in m.widgets
    ensures FoldAll(Stepper(server), m0, WidgetSeeds(m, ts, keys)) == m0.(widgets := Adopt(m0.widgets, m.widgets, keys))
    decreases |keys|
  {
    if keys != [] {
      hide Stepper;
      var n := |keys| - 1;
      assert WidgetSeeds(m, ts, keys)[..n] == WidgetSeeds(m, ts, keys[..n]);
      WidgetSeedsFold(server, m0, m, ts, keys[..n]);
      var w := m.widgets[keys[n]];
      WidgetSeedStep(server, m0.(widgets := Adopt(m0.widgets, m.widgets, keys[..n])), ts, "meta-widget-" + w.key, w);
    }
  }

  lemma {:induction false} ApprovalSeedsFold(server: bool, m0: Meta, m: Meta, ts: string, n: nat)
    requires Seedable(m) && n <= |m.approvals| && m0.approvals == []
    ensures FoldAll(Stepper(server), m0, ApprovalSeeds(m, ts)[..n]) == m0.(approvals := m.approvals[..n])
    decreases n
  {
    if n > 0 {
      hide Stepper;
      assert ApprovalSeeds(m, ts)[..n][..n - 1] == ApprovalSeeds(m, ts)[..n - 1];
      ApprovalSeedsFold(server, m0, m, ts, n - 1);
      assert m.approvals[..n] == m.approvals[..n - 1] + [m.approvals[n - 1]];
      ApprovalSeedStep(server, m0.(approvals := m.approvals[..n - 1]), ts, m.approvals[n - 1]);
    }
  }

  lemma TitleSeedFold(server: bool, m0: Meta, m: Meta, ts: string)
    requires m0.ambientTitle.None?
    ensures FoldAll(Stepper(server), m0, TitleSeeds(m, ts)) == m0.(ambientTitle := m.ambientTitle)
  {
    if m.ambientTitle.Some? { FoldAllOne(Stepper(server), m0, TitleSeeds(m, ts)[0]); }
  }

  lemma SnapshotSeedFold(server: bool, m: Meta, ref: string, ts: string)
    requires Seedable(m)
    ensures FoldAll(Stepper(server), InitialMeta, [Event(ts, None, SessionOpened(MetaSnapshot(m, ref)))])
         == Named(m, ref).(approvals := [], statuses := map[], widgets := map[], ambientTitle := None)
  {
    FoldAllOne(Stepper(server), InitialMeta, Event(ts, None, SessionOpened(MetaSnapshot(m, ref))));
    assert InitialMeta.fields + m.fields == m.fields;
  }

  lemma AmbientSeedsFold(server: bool, m0: Meta, m: Meta, ts: string, statusKeys: seq<string>, widgetKeys: seq<string>)
    requires Seedable(m) && m0.statuses == map[] && m0.widgets == map[]
    requires forall k :: k in statusKeys <==> k in m.statuses
    requires forall k :: k in widgetKeys <==> k in m.widgets
    ensures FoldAll(Stepper(server), m0, StatusSeeds(m, ts, statusKeys) + WidgetSeeds(m, ts, widgetKeys))
         == m0.(statuses := (if server then m else Shown(m)).statuses, widgets := m.widgets)
  {
    hide FoldAll, Stepper, Adopt, AdoptLines, StatusSeeds, WidgetSeeds, Seedable;
    var lines := (if server then m else Shown(m)).statuses;
    FoldAllConcat(Stepper(server), m0, StatusSeeds(m, ts, statusKeys), WidgetSeeds(m, ts, widgetKeys));
    StatusSeedsFold(server, m0, m, ts, statusKeys);
    AdoptLinesAt(server, m.statuses, statusKeys);
    assert AdoptLines(server, map[], m.statuses, statusKeys) == lines;
    WidgetSeedsFold(server, m0.(statuses := lines), m, ts, widgetKeys);
    AdoptAt(m.widgets, widgetKeys);
  }

  lemma DialogSeedsFold(server: bool, m0: Meta, m: Meta, ts: string)
    requires Seedable(m) && m0.ambientTitle.None? && m0.approvals == []
    ensures FoldAll(Stepper(server), m0, TitleSeeds(m, ts) + ApprovalSeeds(m, ts))
         == m0.(ambientTitle := m.ambientTitle, approvals := m.approvals)
  {
    hide FoldAll, Stepper, Seedable;
    FoldAllConcat(Stepper(server), m0, TitleSeeds(m, ts), ApprovalSeeds(m, ts));
    TitleSeedFold(server, m0, m, ts);
    ApprovalSeedsFold(server, m0.(ambientTitle := m.ambientTitle), m, ts, |m.approvals|);
    assert ApprovalSeeds(m, ts)[..|m.approvals|] == ApprovalSeeds(m, ts) && m.approvals[..|m.approvals|] == m.approvals;
  }

  /** The hub folds the seed to the metadata it was made from, under a name; a client to what it shows of that. */
  lemma SeedRoundTrip(server: bool, m: Meta, ref: string, ts: string, statusKeys: seq<string>, widgetKeys: seq<string>)
    requires Seedable(m)
    requires forall k :: k in statusKeys <==> k in m.statuses
    requires forall k :: k in widgetKeys <==> k in m.widgets
    ensures FoldAll(Stepper(server), InitialMeta, MetaSeedEvents(m, ref, ts, statusKeys, widgetKeys))
         == Named(if server then m else Shown(m), ref)
  {
    hide FoldAll, Stepper, Seedable;
    var first := [Event(ts, None, SessionOpened(MetaSnapshot(m, ref)))];
    var ambient := StatusSeeds(m, ts, statusKeys) + WidgetSeeds(m, ts, widgetKeys);
    var dialogs := TitleSeeds(m, ts) + ApprovalSeeds(m, ts);
    assert MetaSeedEvents(m, ref, ts, statusKeys, widgetKeys) == (first + ambient) + dialogs;
    FoldAllConcat(Stepper(server), InitialMeta, first + ambient, dialogs);
    FoldAllConcat(Stepper(server), InitialMeta, first, ambient);
    SnapshotSeedFold(server, m, ref, ts);
    var m0 := Named(m, ref).(approvals := [], statuses := map[], widgets := map[], ambientTitle := None);
    AmbientSeedsFold(server, m0, m, ts, statusKeys, widgetKeys);
    DialogSeedsFold(server, m0.(statuses := (if server then m else Shown(m)).statuses, widgets := m.widgets), m, ts);
  }

  // --- A seed touches no transcript ----------------------------------------------------

  predicate Quiet(e: Event) {
    e.handle.None? && (e.body.SessionOpened? || (e.body.HostUiRequest? && !e.body.request.Notify?))
  }

  lemma SeedIsQuiet(m: Meta, ref: string, ts: string, statusKeys: seq<string>, widgetKeys: seq<string>)
    requires Seedable(m)
    requires forall k :: k in statusKeys ==> k in m.statuses
    requires forall k :: k in widgetKeys ==> k in m.widgets
    ensures var seed := MetaSeedEvents(m, ref, ts, statusKeys, widgetKeys);
      seed != [] && forall i :: 0 <= i < |seed| ==> Quiet(seed[i])
  {
  }

  lemma {:induction false} QuietLog(r: Reducer, m: Meta, es: seq<Event>)
    requires forall i :: 0 <= i < |es| ==> Quiet(es[i])
    ensures FoldAll(r.Fold, State(m, [], map[]), es) == State(FoldAll(ClientStep, m, es), [], map[])
  {
    if es != [] {
      hide FoldMeta;
      QuietLog(r, m, es[..|es| - 1]);
    }
  }

  /** A client that adopts the hub's fresh seed shows that metadata and an empty transcript. */
  lemma MetaSeedRoundTrip(r: Reducer, m: Meta, ref: string, ts: string, statusKeys: seq<string>, widgetKeys: seq<string>)
    requires Seedable(m)
    requires forall k :: k in statusKeys <==> k in m.statuses
    requires forall k :: k in widgetKeys <==> k in m.widgets
    ensures FoldAll(r.Fold, Initial, MetaSeedEvents(m, ref, ts, statusKeys, widgetKeys)) == State(Named(Shown(m), ref), [], map[])
  {
    hide FoldAll, MetaSeedEvents, Seedable;
    SeedIsQuiet(m, ref, ts, statusKeys, widgetKeys);
    QuietLog(r, InitialMeta, MetaSeedEvents(m, ref, ts, statusKeys, widgetKeys));
    SeedRoundTrip(false, m, ref, ts, statusKeys, widgetKeys);
  }
}
