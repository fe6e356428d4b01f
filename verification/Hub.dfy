/**
 The resume protocol run over driver events and the session fold: the laws the protocol needs hold of them, and
 where the hub's treatment of an event departs from the fold's.

 The hub has a reducer of its own for metadata. The protocol is run over both folds side by side: a client shows the
 session, and the seed of a restarted journal is made from the hub's metadata alone.
 */
module Hub {
  import opened Options
  import opened Logs
  import opened Transcript
  import opened Coalesce
  import opened MetaAgree
  import opened MetaSeed
  import opened Reset
  import opened NestedMerge
  import opened Resume
  import opened Streams

  datatype Both = Both(session: State, hub: Meta)

  datatype Pairing = Pairing(r: Reducer) {
    function Step(b: Both, e: Event): Both {
      Both(r.Fold(b.session, e), ServerStep(b.hub, e))
    }
  }

  const Begin := Both(Initial, InitialMeta)

  /** `order` lists a set of keys in the order a hash map walks it. */
  ghost predicate Enumerates(order: set<string> -> seq<string>) {
    forall ks, k :: k in order(ks) <==> k in ks
  }

  function RestartSeed(order: set<string> -> seq<string>, ref: string, m: Meta, ts: string): seq<Event> {
    var a, b := order(m.statuses.Keys), order(m.widgets.Keys);
    if (forall i :: 0 <= i < |a| ==> a[i] in m.statuses) && (forall i :: 0 <= i < |b| ==> b[i] in m.widgets)
    then MetaSeedEvents(m, ref, ts, a, b) else []
  }

  function SessionAlgebra(r: Reducer, fits: (State, Event) -> bool): Algebra<Both, Event> {
    Algebra(Pairing(r).Step, TryMerge, (b: Both, e: Event) => fits(b.session, e), SameUsageStream)
  }

  /** The hub of a session `ref`. It restarts on every sessionReset. What it does depends on neither `fits`, which says
      of which events merges are known to be sound, nor on the sizes in `r`. */
  function SessionHub(r: Reducer, fits: (State, Event) -> bool, order: set<string> -> seq<string>, ref: string): Protocol<Both, Event> {
    Protocol(SessionAlgebra(r, fits), Begin, (e: Event) => e.body.AssistantDelta?, (e: Event) => e.body.SessionReset?,
             (b: Both, e: Event) => e.handle.None? && b.session.meta.ref.Some? && Shown(b.hub) == b.session.meta,
             (b: Both, e: Event) => RestartSeed(order, ref, b.hub, e.ts))
  }

  // --- The two folds side by side ----------------------------------------------------

  lemma {:induction false} Projects(r: Reducer, b: Both, es: seq<Event>)
    ensures FoldAll(Pairing(r).Step, b, es) == Both(FoldAll(r.Fold, b.session, es), FoldAll(ServerStep, b.hub, es))
  {
    if es != [] {
      hide ServerStep, FoldMeta, FoldItems;
      Projects(r, b, es[..|es| - 1]);
    }
  }

  /** The hub's metadata never notices a merge, of usage across streams included. */
  lemma ServerMerge(m: Meta, a: Event, b: Event)
    requires TryMerge(a, b).Some?
    ensures ServerStep(ServerStep(m, a), b) == ServerStep(m, TryMerge(a, b).value)
  {
    if a.body.UsageUpdated? {
      assert m.fields[Usage := a.body.usage][Usage := b.body.usage] == m.fields[Usage := b.body.usage];
    }
  }

  lemma SessionMergesHere(r: Reducer, fits: (State, Event) -> bool)
    requires Merging(r, fits)
    ensures MergeSound(SessionAlgebra(r, fits)) && MergeLocal(SessionAlgebra(r, fits))
  {
    var g := SessionAlgebra(r, fits);
    forall s: Both, a: Event, b: Event
      | TryMerge(a, b).Some? && SameUsageStream(a, b) && fits(s.session, a) && fits(r.Fold(s.session, a), b)
      ensures var m := TryMerge(a, b).value; g.step(g.step(s, a), b) == g.step(s, m) && fits(s.session, m)
    {
      hide ServerStep, FoldMeta, FoldItems;
      ServerMerge(s.hub, a, b);
    }
    forall a: Event, b: Event | TryMerge(a, b).Some? && SameUsageStream(a, b)
      ensures var m := TryMerge(a, b).value;
        (forall x :: SameUsageStream(x, a) ==> SameUsageStream(x, m)) && SameNext(g, m, b)
    {
    }
  }

  lemma {:induction false} PlainIsCalm(r: Reducer, fits: (State, Event) -> bool, es: seq<Event>)
    requires Merging(r, fits) && Plain(es)
    ensures Calm(SessionAlgebra(r, fits), Begin, es)
  {
    if es != [] { PlainIsCalm(r, fits, es[..|es| - 1]); }
  }

  // --- Restarting ------------------------------------------------------------------------

  lemma RestartSeedShape(order: set<string> -> seq<string>, ref: string, m: Meta, ts: string)
    requires Enumerates(order) && Seedable(m)
    ensures var seed := RestartSeed(order, ref, m, ts);
      && seed == MetaSeedEvents(m, ref, ts, order(m.statuses.Keys), order(m.widgets.Keys))
      && seed != [] && forall i :: 0 <= i < |seed| ==> Quiet(seed[i])
  {
    SeedIsQuiet(m, ref, ts, order(m.statuses.Keys), order(m.widgets.Keys));
    hide MetaSeedEvents, Quiet, Seedable;
  }

  /** What a client and the hub make of the seed of a restart. */
  lemma RestartSeedFolds(r: Reducer, order: set<string> -> seq<string>, ref: string, m: Meta, ts: string)
    requires Enumerates(order) && Seedable(m)
    ensures FoldAll(Pairing(r).Step, Begin, RestartSeed(order, ref, m, ts))
         == Both(State(Named(Shown(m), ref), [], map[]), Named(m, ref))
  {
    hide FoldAll, MetaSeedEvents, Seedable, Shown, Named;
    RestartSeedShape(order, ref, m, ts);
    Projects(r, Begin, RestartSeed(order, ref, m, ts));
    MetaSeedRoundTrip(r, m, ref, ts, order(m.statuses.Keys), order(m.widgets.Keys));
    SeedRoundTrip(true, m, ref, ts, order(m.statuses.Keys), order(m.widgets.Keys));
  }

  lemma ResetFold(r: Reducer, b: Both, e: Event)
    requires e.body.SessionReset?
    ensures var t := Pairing(r).Step(b, e);
      && t.hub == b.hub && t.session.meta == b.session.meta
      && if e.handle.None? then t.session.items == [] && t.session.nested == map[] else e.handle.value in t.session.nested
  {
  }

  /** The hub's metadata can be seeded, and a reset does not change it. */
  lemma AfterReset(r: Reducer, es: seq<Event>, e: Event)
    requires e.body.SessionReset?
    ensures var before, after := FoldAll(r.Fold, Initial, es), FoldAll(r.Fold, Initial, es + [e]);
      && FoldAll(Pairing(r).Step, Begin, es + [e]) == Both(after, ServerMeta(es)) && Seedable(ServerMeta(es))
      && after.meta == before.meta
      && (if e.handle.None? then after.items == [] && after.nested == map[] else e.handle.value in after.nested)
  {
    var b := FoldAll(Pairing(r).Step, Begin, es);
    Projects(r, Begin, es);
    Projects(r, Begin, es + [e]);
    FoldAllPush(Pairing(r).Step, Begin, es, e);
    ResetFold(r, b, e);
    ServerMetaSeedable(es);
  }

  /** When the two metadata agree and the session is named, the seed of a top-level reset means what folding it means. */
  lemma RestartMeans(r: Reducer, order: set<string> -> seq<string>, ref: string, es: seq<Event>, e: Event)
    requires Enumerates(order) && e.body.SessionReset? && e.handle.None?
    requires var m := FoldAll(r.Fold, Initial, es).meta; m.ref.Some? && Shown(ServerMeta(es)) == m
    ensures FoldAll(Pairing(r).Step, Begin, RestartSeed(order, ref, ServerMeta(es), e.ts)) == FoldAll(Pairing(r).Step, Begin, es + [e])
  {
    var m := ServerMeta(es);
    AfterReset(r, es, e);
    hide FoldAll, RestartSeed, Seedable, ShownLines;
    RestartSeedFolds(r, order, ref, m, e.ts);
    assert Named(m, ref) == m && Named(Shown(m), ref) == Shown(m);
  }

  /** It is plain, and nothing merges across it. */
  lemma RestartPlain(r: Reducer, fits: (State, Event) -> bool, order: set<string> -> seq<string>, ref: string, es: seq<Event>, e: Event)
    requires Enumerates(order) && e.body.SessionReset?
    ensures var seed := RestartSeed(order, ref, ServerMeta(es), e.ts);
      seed != [] && Plain(seed) && SameNext(SessionAlgebra(r, fits), seed[|seed| - 1], e)
  {
    ServerMetaSeedable(es);
    hide FoldAll, RestartSeed, Seedable, MetaSeedEvents;
    RestartSeedShape(order, ref, ServerMeta(es), e.ts);
  }

  lemma SessionRestarts(r: Reducer, fits: (State, Event) -> bool, order: set<string> -> seq<string>, ref: string, es: seq<Event>, e: Event)
    requires Merging(r, fits) && Enumerates(order) && Restartable(SessionHub(r, fits, order, ref), es, e)
    ensures Restarts(SessionHub(r, fits, order, ref), es, e)
  {
    hide FoldAll, RestartSeed, Merging, Shown, Calm, SameNext;
    Projects(r, Begin, es);
    RestartMeans(r, order, ref, es, e);
    RestartPlain(r, fits, order, ref, es, e);
    PlainIsCalm(r, fits, RestartSeed(order, ref, ServerMeta(es), e.ts));
    AfterReset(r, es, e);
  }

  lemma SessionHubLawful(r: Reducer, fits: (State, Event) -> bool, order: set<string> -> seq<string>, ref: string)
    requires Merging(r, fits) && Enumerates(order)
    ensures Lawful(SessionHub(r, fits, order, ref))
  {
    var p := SessionHub(r, fits, order, ref);
    SessionMergesHere(r, fits);
    forall es: seq<Event>, e: Event | Restartable(p, es, e) ensures Restarts(p, es, e) {
      SessionRestarts(r, fits, order, ref, es, e);
    }
  }

  /** The hub restarts on every reset. A client that adopts the fresh seed sees what folding the reset would show if and
      only if the reset is the session's own, a snapshot of its own has named the session, and the last writers agree. */
  lemma RestartExact(r: Reducer, order: set<string> -> seq<string>, ref: string, es: seq<Event>, e: Event)
    requires Enumerates(order) && e.body.SessionReset?
    ensures FoldAll(r.Fold, Initial, RestartSeed(order, ref, ServerMeta(es), e.ts)) == FoldAll(r.Fold, Initial, es + [e]) <==>
      e.handle.None? && LastWrite(Visible(es), RefSlot) != Absent && Agrees(es)
  {
    var m := ServerMeta(es);
    AfterReset(r, es, e);
    RestartSeedFolds(r, order, ref, m, e.ts);
    Projects(r, Begin, RestartSeed(order, ref, m, e.ts));
    hide FoldAll, RestartSeed, Agrees, Visible, LastWrite, Seedable;
    AgreesExactly(r, es);
    ClientRef(r, es);
    HubHearsNames(es);
    LastWriterWins(es, RefSlot);
  }

  lemma ClientRef(r: Reducer, es: seq<Event>)
    ensures FoldAll(r.Fold, Initial, es).meta.ref.Some? <==> LastWrite(Visible(es), RefSlot) != Absent
  {
    hide FoldAll;
    ClientFoldsVisible(r, es);
    LastWriterWins(Visible(es), RefSlot);
  }

  /** Whatever names the session to a client names it to the hub. */
  lemma {:induction false} HubHearsNames(es: seq<Event>)
    ensures LastWrite(Visible(es), RefSlot) != Absent ==> LastWrite(es, RefSlot) != Absent
  {
    if es != [] {
      var init, e := es[..|es| - 1], es[|es| - 1];
      HubHearsNames(init);
      if Reaches(e) { assert Visible(es)[..|Visible(init)|] == Visible(init); } else { assert Visible(es) == Visible(init); }
    }
  }

  /** The same condition is what the protocol asks of a reset. */
  lemma RestartableExactly(r: Reducer, fits: (State, Event) -> bool, order: set<string> -> seq<string>, ref: string, es: seq<Event>, e: Event)
    ensures Restartable(SessionHub(r, fits, order, ref), es, e) <==>
      e.body.SessionReset? && e.handle.None? && LastWrite(Visible(es), RefSlot) != Absent && Agrees(es)
  {
    hide FoldAll, Agrees, Visible, LastWrite, RestartSeed;
    Projects(r, Begin, es);
    AgreesExactly(r, es);
    ClientRef(r, es);
  }

  /** A subagent's snapshot, which no client applies to the session, comes back to it in the seed of the next reset. */
  lemma NestedSnapshotInSeed(r: Reducer, order: set<string> -> seq<string>, ref: string, p: Snapshot, q: Snapshot, h: string, ts: string)
    requires Enumerates(order)
    ensures var es := [Event(ts, None, SessionOpened(p)), Event(ts, Some(h), SessionUpdated(q))];
      var reset := Event(ts, None, SessionReset);
      && FoldAll(r.Fold, Initial, es + [reset]).meta.status == p.status
      && FoldAll(r.Fold, Initial, RestartSeed(order, ref, ServerMeta(es), ts)).meta.status == q.status
  {
    var a, b, reset := Event(ts, None, SessionOpened(p)), Event(ts, Some(h), SessionUpdated(q)), Event(ts, None, SessionReset);
    var es := [a, b];
    assert es == [a] + [b];
    FoldAllOne(r.Fold, Initial, a);
    FoldAllPush(r.Fold, Initial, [a], b);
    FoldAllOne(ServerStep, InitialMeta, a);
    FoldAllPush(ServerStep, InitialMeta, [a], b);
    AfterReset(r, es, reset);
    RestartSeedFolds(r, order, ref, ServerMeta(es), ts);
    Projects(r, Begin, RestartSeed(order, ref, ServerMeta(es), ts));
  }

  /** A reset that belongs to a nested stream leaves the session's own transcript in place when it is folded, and
      the hub's restart drops it. */
  lemma NestedResetDropsTranscript(r: Reducer, order: set<string> -> seq<string>, ref: string, h: string, ts: string)
    requires Enumerates(order)
    ensures var prompt := Event(ts, None, UserMessage("u1", "hello", "", None));
      var reset := Event(ts, Some(h), SessionReset);
      && |FoldAll(r.Fold, Initial, [prompt] + [reset]).items| == 1
      && FoldAll(r.Fold, Initial, RestartSeed(order, ref, ServerMeta([prompt]), ts)).items == []
  {
    var prompt := Event(ts, None, UserMessage("u1", "hello", "", None));
    FoldAllPush(r.Fold, Initial, [prompt], Event(ts, Some(h), SessionReset));
    FoldAllOne(r.Fold, Initial, prompt);
    ServerMetaSeedable([prompt]);
    RestartSeedFolds(r, order, ref, ServerMeta([prompt]), ts);
    Projects(r, Begin, RestartSeed(order, ref, ServerMeta([prompt]), ts));
  }

  /** What the hub of a session holds back and when it restarts: an event is held if and only if it is a delta that is to be
      held or merges with the one held, and a build starts if and only if a reset comes in, with nothing held. */
  lemma HubHolds(r: Reducer, fits: (State, Event) -> bool, order: set<string> -> seq<string>, ref: string,
                 t: System<Both, Event>, ev: Event, hold: bool, evict: nat)
    requires Merging(r, fits) && Enumerates(order) && t.epoch in t.builds
    ensures var u := Resume.Step(SessionHub(r, fits, order, ref), t, Emit(ev, hold, evict));
            && (u.pending.Some? <==>
                ev.body.AssistantDelta? && (hold || (t.pending.Some? && TryMerge(t.pending.value, ev).Some?)))
            && (t.pending.None? ==> (u.epoch == t.epoch + 1 <==> ev.body.SessionReset?))
  {
    hide FoldAll, Merging, Coalesced, RestartSeed, FoldItems, FoldMeta, ServerStep;
    var p := SessionHub(r, fits, order, ref);
    SessionHubLawful(r, fits, order, ref);
    HeldExactly(p, t, ev, hold, evict);
  }

  // --- End to end -----------------------------------------------------------------------

  /** A run over an ordered connection, at the end of which the client is online and has the session in focus. */
  ghost predicate Ends(p: Protocol<Both, Event>, t: System<Both, Event>, ls: seq<Label<Event>>) {
    Fresh(p, t) && AdmissibleRun(p, t, ls) && (forall i :: 0 <= i < |ls| ==> !ls[i].Scramble?) && Attached(p, t, ls)
  }

  /** Once what is held back is flushed and the client has read the wire, its session is the fold of every event the driver
      ever emitted. */
  ghost predicate Shows(r: Reducer, p: Protocol<Both, Event>, t: System<Both, Event>, ls: seq<Label<Event>>)
    requires t.epoch in t.builds
  {
    var flushed := ls + [FlushTimer(0)];
    Run(p, t, flushed + Deliveries(|Run(p, t, flushed).wire|)).client.session.session == FoldAll(r.Fold, Initial, Run(p, t, ls).raw)
  }

  /** For every condition under which merges are sound: every run whose events meet it ends with the client showing
      everything the driver emitted, resets included. */
  lemma HubCatchesUp(r: Reducer, fits: (State, Event) -> bool, order: set<string> -> seq<string>, ref: string,
                     t: System<Both, Event>, ls: seq<Label<Event>>)
    requires Merging(r, fits) && Enumerates(order) && Ends(SessionHub(r, fits, order, ref), t, ls)
    ensures Shows(r, SessionHub(r, fits, order, ref), t, ls)
  {
    hide FoldAll, Merging;
    var p := SessionHub(r, fits, order, ref);
    SessionHubLawful(r, fits, order, ref);
    CatchesUp(p, t, ls, 0);
    Projects(r, Begin, Run(p, t, ls).raw);
  }

  /** In particular every run in which the open bubble of each subagent's stream fits beside its tools in flight, and in
      a truncated stream does not get smaller, however far the streams run over their budgets. */
  lemma SessionCatchesUp(r: Reducer, order: set<string> -> seq<string>, ref: string,
                         t: System<Both, Event>, ls: seq<Label<Event>>)
    requires Shrinks(r) && Enumerates(order) && Ends(SessionHub(r, Living(r), order, ref), t, ls)
    ensures Shows(r, SessionHub(r, Living(r), order, ref), t, ls)
  {
    hide Ends, Shows, Merging, Living, Shrinks;
    LivingMerging(r);
    HubCatchesUp(r, Living(r), order, ref, t, ls);
  }

  /** And whatever the sizes, every run in which no delta makes a stream evict anything. */
  lemma BudgetCatchesUp(r: Reducer, order: set<string> -> seq<string>, ref: string,
                        t: System<Both, Event>, ls: seq<Label<Event>>)
    requires Enumerates(order) && Ends(SessionHub(r, Budget(r), order, ref), t, ls)
    ensures Shows(r, SessionHub(r, Budget(r), order, ref), t, ls)
  {
    hide Ends, Shows, Merging, Budget;
    BudgetMerging(r);
    HubCatchesUp(r, Budget(r), order, ref, t, ls);
  }

  // --- Sessions without subagents meet every assumption -----------------------------

  ghost predicate Plain(es: seq<Event>) {
    forall i :: 0 <= i < |es| ==> es[i].handle.None?
  }

  /** Some snapshot has named the session. */
  ghost predicate Opened(es: seq<Event>) {
    LastWrite(es, RefSlot) != Absent
  }

  ghost predicate PlainLabel(l: Label<Event>) {
    match l
    case Emit(ev, _, _) => ev.handle.None?
    case Reload(history) => Plain(history) && Opened(history)
    case _ => true
  }

  lemma StaysOpened(es: seq<Event>, e: Event)
    requires Opened(es)
    ensures Opened(es + [e])
  {
    assert (es + [e])[..|es|] == es;
  }

  lemma StepRaw<S, E>(p: Protocol<S, E>, t: System<S, E>, l: Label<E>)
    requires t.epoch in t.builds
    ensures Step(p, t, l).raw == (match l case Emit(ev, _, _) => t.raw + [ev] case Reload(history) => history case _ => t.raw)
  {
  }

  lemma {:induction false} PlainRunsAdmissible(r: Reducer, order: set<string> -> seq<string>, ref: string,
                                               t: System<Both, Event>, ls: seq<Label<Event>>)
    requires t.epoch in t.builds && Plain(t.raw) && Opened(t.raw)
    requires forall i :: 0 <= i < |ls| ==> PlainLabel(ls[i])
    ensures var p := SessionHub(r, Budget(r), order, ref);
      AdmissibleRun(p, t, ls) && Plain(Run(p, t, ls).raw) && Opened(Run(p, t, ls).raw)
  {
    if ls != [] {
      var p := SessionHub(r, Budget(r), order, ref);
      var l := ls[|ls| - 1];
      PlainRunsAdmissible(r, order, ref, t, ls[..|ls| - 1]);
      var u := Run(p, t, ls[..|ls| - 1]);
      BudgetMerging(r);
      hide Step, Calm, FoldAll, Opened, Merging, Budget;
      StepRaw(p, u, l);
      match l
      case Emit(ev, _, _) =>
        StaysOpened(u.raw, ev);
        PlainIsCalm(r, Budget(r), u.raw + [ev]);
        PlainRestartable(r, order, ref, u.raw, ev);
      case Reload(history) => PlainIsCalm(r, Budget(r), history);
      case _ =>
    }
  }

  lemma PlainRestartable(r: Reducer, order: set<string> -> seq<string>, ref: string, es: seq<Event>, e: Event)
    requires Plain(es) && Opened(es) && e.handle.None?
    ensures e.body.SessionReset? ==> Restartable(SessionHub(r, Budget(r), order, ref), es, e)
  {
    RestartableExactly(r, Budget(r), order, ref, es, e);
    PlainAgrees(es);
    PlainIsVisible(es);
  }

  /** Without subagents no assumption on the run is left: every interleaving of events, resets, flushes, reloads,
      drops and reconnects ends, once the wire is read, in the fold of everything emitted. */
  lemma PlainSessionCatchesUp(r: Reducer, order: set<string> -> seq<string>, ref: string,
                              t: System<Both, Event>, ls: seq<Label<Event>>)
    requires Enumerates(order) && Fresh(SessionHub(r, Budget(r), order, ref), t) && Plain(t.raw) && Opened(t.raw)
    requires forall i :: 0 <= i < |ls| ==> PlainLabel(ls[i]) && !ls[i].Scramble?
    requires Attached(SessionHub(r, Budget(r), order, ref), t, ls)
    ensures Shows(r, SessionHub(r, Budget(r), order, ref), t, ls)
  {
    hide Run, FoldAll, Shows, Budget;
    PlainRunsAdmissible(r, order, ref, t, ls);
    BudgetCatchesUp(r, order, ref, t, ls);
  }
}
