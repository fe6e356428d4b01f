/**
 The resume protocol: a hub that merges, journals and numbers driver events (server/pantoken-server/src/hub.rs),
 a client that folds them behind a watermark (client/src/lib/store.svelte.ts), and the connection between them.
 One session and one client; the events, the state they fold into and the merge are parameters.
 */
module Resume {
  import opened Options
  import opened Logs

  /** What the protocol is run over. `restart` is the seed a journal restarts from after a reset event, given the
      state that event leads to; `restartable` says of a state and a reset event that this seed stands for it. */
  datatype Protocol<!S, !E> = Protocol(
    g: Algebra<S, E>, initial: S, isDelta: E -> bool, isReset: E -> bool, restartable: (S, E) -> bool, restart: (S, E) -> seq<E>)

  datatype Message<E> =
    | Seed(epoch: nat, number: nat, events: seq<E>)
    | Live(epoch: nat, number: nat, event: E)

  /** One transcript build: the events its journal was created from, and every event stamped since. */
  datatype Build<E> = Build(seed: seq<E>, log: seq<E>)

  /** `epoch` 0 is a client that has adopted no seed yet. */
  datatype Client<S> = Client(epoch: nat, number: nat, session: S, seedRequested: bool)

  /** `raw` is every event the driver has emitted since it last supplied a whole history; `builds` holds the history
      of each epoch; `evicted` events of the current one have left the resume ring; `sent` is everything ever sent.
      The hub routes a session's events to the clients `focused` on it. */
  datatype System<S, E> = System(
    raw: seq<E>, pending: Option<E>, epoch: nat, builds: map<nat, Build<E>>, evicted: nat,
    connected: bool, focused: bool, wire: seq<Message<E>>, sent: seq<Message<E>>, client: Client<S>)

  datatype Label<E> =
    | Emit(ev: E, hold: bool, evict: nat)
    | FlushTimer(evict: nat)
    | Reload(history: seq<E>)
    | Deliver
    | Disconnect
    | Reconnect(home: bool)   // whether the hub's default focus is this session
    | Focus                   // the client opens the session
    | AnswerSeedRequest
    | Scramble(garbled: seq<Message<E>>)

  // --- The hub ----------------------------------------------------------------

  function Current<S, E>(t: System<S, E>): Build<E>
    requires t.epoch in t.builds
  {
    t.builds[t.epoch]
  }

  /** The journaled history of the current epoch. */
  function History<S, E>(t: System<S, E>): seq<E>
    requires t.epoch in t.builds
  {
    Current(t).seed + Current(t).log
  }

  function Held<E>(pending: Option<E>): seq<E> {
    if pending.Some? then [pending.value] else []
  }

  function Send<S, E>(t: System<S, E>, m: Message<E>): System<S, E> {
    if t.connected && t.focused then t.(wire := t.wire + [m], sent := t.sent + [m]) else t
  }

  function SeedMessage<S, E>(p: Protocol<S, E>, t: System<S, E>): Message<E>
    requires t.epoch in t.builds
  {
    Seed(t.epoch, |Current(t).log|, Coalesced(p.g.merge, History(t)))
  }

  /** The non-reset half of `ingest_now`: stamp the event, let the ring evict, route it to the viewer. */
  function Append<S, E>(t: System<S, E>, ev: E, evict: nat): System<S, E>
    requires t.epoch in t.builds
  {
    hide Calm, FoldAll;
    var log := Current(t).log + [ev];
    var evicted := if evict < t.evicted then t.evicted else if evict > |log| then |log| else evict;
    Send(t.(builds := t.builds[t.epoch := Current(t).(log := log)], evicted := evicted), Live(t.epoch, |log|, ev))
  }

  /** Start a fresh build under the next epoch and seed the viewer with it. */
  function Restart<S, E>(p: Protocol<S, E>, t: System<S, E>, seed: seq<E>): System<S, E> {
    var u := t.(epoch := t.epoch + 1, builds := t.builds[t.epoch + 1 := Build(seed, [])], evicted := 0);
    Send(u, SeedMessage(p, u))
  }

  /** `ingest_now`. */
  function IngestNow<S, E>(p: Protocol<S, E>, t: System<S, E>, ev: E, evict: nat): (u: System<S, E>)
    requires t.epoch in t.builds
    ensures u.epoch in u.builds
  {
    if p.isReset(ev)
    then Restart(p, t, p.restart(p.g.step(FoldAll(p.g.step, p.initial, Coalesced(p.g.merge, History(t))), ev), ev))
    else Append(t, ev, evict)
  }

  /** `flush_pending`. */
  function Flush<S, E>(p: Protocol<S, E>, t: System<S, E>, evict: nat): System<S, E>
    requires t.epoch in t.builds
    ensures Flush(p, t, evict).epoch in Flush(p, t, evict).builds
  {
    if t.pending.None? then t else IngestNow(p, t.(pending := None), t.pending.value, evict)
  }

  /** `ingest`: deltas may be held back and merged, everything else commits what is held first. */
  function Ingest<S, E>(p: Protocol<S, E>, t: System<S, E>, ev: E, hold: bool, evict: nat): (u: System<S, E>)
    requires t.epoch in t.builds
    ensures u.epoch in u.builds
  {
    hide IngestNow;
    if p.isDelta(ev) && t.pending.Some? && p.g.merge(t.pending.value, ev).Some?
    then t.(pending := p.g.merge(t.pending.value, ev))
    else
      var u := Flush(p, t, evict);
      if p.isDelta(ev) && hold then u.(pending := Some(ev)) else IngestNow(p, u, ev, evict)
  }

  /** The bootstrap of a connection: replay the ring from the client's watermark, or ship a full seed. A token that is
      not covered still gets its session's seed, and the focus goes to the hub's default session. */
  function Bootstrap<S, E>(p: Protocol<S, E>, t: System<S, E>, home: bool): System<S, E>
    requires t.epoch in t.builds
  {
    var log := Current(t).log;
    var n := t.client.number;
    var out := if Resumable(t)
               then seq(|log| - n, i requires 0 <= i < |log| - n => Live(t.epoch, n + i + 1, log[n + i]))
               else if t.client.epoch > 0 || home then [SeedMessage(p, t)] else [];
    t.(connected := true, focused := home || Resumable(t), wire := out, sent := t.sent + out)
  }

  /** The token names the current build and the ring still holds everything after it. */
  predicate Resumable<S, E>(t: System<S, E>)
    requires t.epoch in t.builds
  {
    t.client.epoch > 0 && t.client.epoch == t.epoch && t.evicted <= t.client.number <= |Current(t).log|
  }

  // --- The client -------------------------------------------------------------

  /** The store's `seed` and `event` cases. */
  function Receive<S, E>(p: Protocol<S, E>, c: Client<S>, m: Message<E>): Client<S> {
    match m
    case Seed(epoch, number, events) => Client(epoch, number, FoldAll(p.g.step, p.initial, events), false)
    case Live(epoch, number, event) =>
      if epoch != c.epoch then c
      else if number != c.number + 1 then c.(seedRequested := true)
      else Client(epoch, number, p.g.step(c.session, event), false)
  }

  // --- Runs -------------------------------------------------------------------

  /** One step. A label that is not enabled leaves the system as it is. */
  function Step<S, E(==)>(p: Protocol<S, E>, t: System<S, E>, l: Label<E>): (u: System<S, E>)
    requires t.epoch in t.builds
    ensures u.epoch in u.builds
  {
    hide Ingest, Flush, FoldAll, Coalesced;
    match l
    case Emit(ev, hold, evict) => Ingest(p, t, ev, hold, evict).(raw := t.raw + [ev])
    case FlushTimer(evict) => Flush(p, t, evict)
    case Reload(history) => Restart(p, t.(pending := None, raw := history), history)
    case Deliver => if t.connected && t.wire != [] then t.(client := Receive(p, t.client, t.wire[0]), wire := t.wire[1..]) else t
    case Disconnect => t.(connected := false, wire := [])
    case Reconnect(home) => Bootstrap(p, t, home)
    case Focus => if t.connected then Send(t.(focused := true), SeedMessage(p, t.(focused := true))) else t
    case AnswerSeedRequest => if t.client.seedRequested then Send(t, SeedMessage(p, t)) else t
    case Scramble(garbled) => if forall i :: 0 <= i < |garbled| ==> garbled[i] in t.sent then t.(wire := garbled) else t
  }

  function Run<S, E(==)>(p: Protocol<S, E>, t: System<S, E>, ls: seq<Label<E>>): (r: System<S, E>)
    requires t.epoch in t.builds
    ensures r.epoch in r.builds
  {
    hide Step;
    if ls == [] then t else Step(p, Run(p, t, ls[..|ls| - 1]), ls[|ls| - 1])
  }

  // --- Laws of the parameters --------------------------------------------------

  /** The restart seed after `es` and the reset `e` means what folding them means, and nothing merges across it. */
  ghost predicate Restarts<S, E(!new)>(p: Protocol<S, E>, es: seq<E>, e: E) {
    var seed := p.restart(FoldAll(p.g.step, p.initial, es + [e]), e);
    seed != [] && Calm(p.g, p.initial, seed) && SameNext(p.g, seed[|seed| - 1], e)
    && FoldAll(p.g.step, p.initial, seed) == FoldAll(p.g.step, p.initial, es + [e])
  }

  ghost predicate Restartable<S, E>(p: Protocol<S, E>, es: seq<E>, e: E) {
    p.isReset(e) && p.restartable(FoldAll(p.g.step, p.initial, es), e)
  }

  ghost predicate Lawful<S(!new), E(!new)>(p: Protocol<S, E>) {
    MergeSound(p.g) && MergeLocal(p.g)
    && (forall e :: p.isDelta(e) ==> !p.isReset(e))
    && (forall a, b :: !p.isReset(a) && p.isDelta(b) && p.g.merge(a, b).Some? ==> !p.isReset(p.g.merge(a, b).value))
    && (forall es, e :: Restartable(p, es, e) ==> Restarts(p, es, e))
  }

  // --- The invariant -----------------------------------------------------------

  ghost predicate Truthful<S, E>(p: Protocol<S, E>, builds: map<nat, Build<E>>, m: Message<E>) {
    m.epoch in builds && m.number <= |builds[m.epoch].log| &&
    match m
    case Seed(e, n, events) => events == Coalesced(p.g.merge, builds[e].seed + builds[e].log[..n])
    case Live(e, n, event) => n > 0 && event == builds[e].log[n - 1]
  }

  /** The client shows exactly the fold of the first `number` events of its build: none twice, none skipped. */
  ghost predicate Exact<S, E>(p: Protocol<S, E>, builds: map<nat, Build<E>>, c: Client<S>) {
    c.epoch == 0 ||
    (c.epoch in builds && c.number <= |builds[c.epoch].log|
     && c.session == FoldAll(p.g.step, p.initial, builds[c.epoch].seed + builds[c.epoch].log[..c.number]))
  }

  ghost predicate Sound<S, E>(p: Protocol<S, E>, t: System<S, E>) {
    t.epoch in t.builds && t.evicted <= |Current(t).log|
    && (forall e :: e in t.builds ==> 0 < e <= t.epoch)
    && (forall e :: e in t.builds ==> Calm(p.g, p.initial, t.builds[e].seed + t.builds[e].log))
    && (forall i :: 0 <= i < |t.sent| ==> Truthful(p, t.builds, t.sent[i]))
    && (forall i :: 0 <= i < |t.wire| ==> t.wire[i] in t.sent)
    && Exact(p, t.builds, t.client)
  }

  /** The journaled history and what is held back mean everything the driver has emitted. */
  ghost predicate Complete<S, E(!new)>(p: Protocol<S, E>, t: System<S, E>)
    requires t.epoch in t.builds
  {
    Compresses(p.g, p.initial, t.raw, History(t) + Held(t.pending))
    && (t.pending.Some? ==> !p.isReset(t.pending.value))
  }

  // --- Builds only grow ----------------------------------------------------------

  ghost predicate Grows<E>(a: map<nat, Build<E>>, b: map<nat, Build<E>>) {
    forall e :: e in a ==> e in b && a[e].seed == b[e].seed && a[e].log <= b[e].log
  }

  lemma PrefixOfLonger<E>(seed: seq<E>, a: seq<E>, b: seq<E>, n: nat)
    requires a <= b && n <= |a|
    ensures seed + a[..n] == seed + b[..n]
  {
  }

  lemma TruthStays<S, E>(p: Protocol<S, E>, a: map<nat, Build<E>>, b: map<nat, Build<E>>, m: Message<E>)
    requires Grows(a, b) && Truthful(p, a, m)
    ensures Truthful(p, b, m)
  {
    PrefixOfLonger(a[m.epoch].seed, a[m.epoch].log, b[m.epoch].log, m.number);
  }

  lemma ExactStays<S, E>(p: Protocol<S, E>, a: map<nat, Build<E>>, b: map<nat, Build<E>>, c: Client<S>)
    requires Grows(a, b) && Exact(p, a, c)
    ensures Exact(p, b, c)
  {
    if c.epoch != 0 {
      PrefixOfLonger(a[c.epoch].seed, a[c.epoch].log, b[c.epoch].log, c.number);
    }
  }

  // --- Each hub action keeps the invariant -----------------------------------------

  lemma WholeLog<E>(b: Build<E>)
    ensures b.seed + b.log[..|b.log|] == b.seed + b.log
  {
  }

  /** Sending one truthful message to a system whose builds have grown. */
  lemma SendSound<S, E>(p: Protocol<S, E>, t: System<S, E>, u: System<S, E>, m: Message<E>)
    requires Sound(p, t) && Grows(t.builds, u.builds)
    requires u.wire == t.wire && u.sent == t.sent && u.client == t.client
    requires u.epoch in u.builds && u.evicted <= |Current(u).log|
    requires forall e :: e in u.builds ==> 0 < e <= u.epoch
    requires forall e :: e in u.builds ==> Calm(p.g, p.initial, u.builds[e].seed + u.builds[e].log)
    requires Truthful(p, u.builds, m)
    ensures Sound(p, Send(u, m))
  {
    forall i | 0 <= i < |t.sent| ensures Truthful(p, u.builds, t.sent[i]) {
      TruthStays(p, t.builds, u.builds, t.sent[i]);
    }
    ExactStays(p, t.builds, u.builds, t.client);
  }

  lemma NewestTruthful<S, E>(p: Protocol<S, E>, builds: map<nat, Build<E>>, epoch: nat)
    requires epoch in builds && builds[epoch].log != []
    ensures var log := builds[epoch].log; Truthful(p, builds, Live(epoch, |log|, log[|log| - 1]))
  {
  }

  lemma AppendSound<S, E>(p: Protocol<S, E>, t: System<S, E>, ev: E, evict: nat)
    requires Sound(p, t) && Calm(p.g, p.initial, History(t) + [ev])
    ensures var u := Append(t, ev, evict);
      Sound(p, u) && History(u) == History(t) + [ev] && u.pending == t.pending && u.raw == t.raw
  {
    hide Calm, FoldAll, Truthful, Exact, Coalesced;
    var log := Current(t).log + [ev];
    var evicted := if evict < t.evicted then t.evicted else if evict > |log| then |log| else evict;
    var u := t.(builds := t.builds[t.epoch := Current(t).(log := log)], evicted := evicted);
    assert Current(t).seed + log == History(t) + [ev];
    NewestTruthful(p, u.builds, t.epoch);
    SendSound(p, t, u, Live(t.epoch, |log|, ev));
  }

  lemma RestartSound<S, E>(p: Protocol<S, E>, t: System<S, E>, seed: seq<E>)
    requires Sound(p, t) && Calm(p.g, p.initial, seed)
    ensures var u := Restart(p, t, seed);
      Sound(p, u) && History(u) == seed && u.pending == t.pending && u.raw == t.raw
  {
    var u := t.(epoch := t.epoch + 1, builds := t.builds[t.epoch + 1 := Build(seed, [])], evicted := 0);
    assert seed + [] == seed;
    WholeLog(Build(seed, []));
    SendSound(p, t, u, SeedMessage(p, u));
  }

  lemma FlushSound<S(!new), E(!new)>(p: Protocol<S, E>, t: System<S, E>, evict: nat)
    requires Sound(p, t) && Complete(p, t)
    ensures var u := Flush(p, t, evict); Sound(p, u) && Complete(p, u) && u.pending.None? && u.raw == t.raw
  {
    if t.pending.Some? {
      var v := t.(pending := None);
      AppendSound(p, v, t.pending.value, evict);
      var u := Append(v, t.pending.value, evict);
      assert History(u) + [] == History(t) + [t.pending.value];
    }
  }

  /** The hub's own fold of its coalesced seed is the fold of everything the driver emitted. */
  lemma FoldsEverything<S(!new), E(!new)>(p: Protocol<S, E>, t: System<S, E>)
    requires Lawful(p) && Sound(p, t) && Complete(p, t) && t.pending.None?
    ensures FoldAll(p.g.step, p.initial, Coalesced(p.g.merge, History(t))) == FoldAll(p.g.step, p.initial, t.raw)
  {
    assert History(t) + [] == History(t);
    CoalesceSound(p.g, p.initial, History(t));
  }

  lemma ResetComplete<S(!new), E(!new)>(p: Protocol<S, E>, t: System<S, E>, ev: E, evict: nat)
    requires Lawful(p) && Sound(p, t) && Complete(p, t) && t.pending.None?
    requires p.isReset(ev) && Restartable(p, t.raw, ev)
    ensures var u := IngestNow(p, t, ev, evict).(raw := t.raw + [ev]); Sound(p, u) && Complete(p, u)
  {
    FoldsEverything(p, t);
    FoldAllPush(p.g.step, p.initial, t.raw, ev);
    assert Restarts(p, t.raw, ev);
    var seed := p.restart(FoldAll(p.g.step, p.initial, t.raw + [ev]), ev);
    RestartSound(p, t, seed);
    var u := Restart(p, t, seed);
    assert History(u) + [] == seed;
    assert (t.raw + [ev])[|t.raw + [ev]| - 1] == ev;
  }

  lemma AppendComplete<S(!new), E(!new)>(p: Protocol<S, E>, t: System<S, E>, ev: E, evict: nat)
    requires Sound(p, t) && Complete(p, t) && t.pending.None? && Calm(p.g, p.initial, t.raw + [ev])
    ensures var u := Append(t, ev, evict).(raw := t.raw + [ev]); Sound(p, u) && Complete(p, u)
  {
    hide Calm, FoldAll;
    var out := History(t) + [ev];
    assert Compresses(p.g, p.initial, t.raw + [ev], out) by {
      assert History(t) + Held(t.pending) == History(t);
      PushCompresses(p.g, p.initial, t.raw, History(t), ev);
    }
    AppendSound(p, t, ev, evict);
    var u := Append(t, ev, evict).(raw := t.raw + [ev]);
    assert History(u) + Held(u.pending) == out;
  }

  /** What the environment must respect: the history it makes stays calm, and a reset comes where the hub can restart. */
  ghost predicate Admissible<S, E>(p: Protocol<S, E>, t: System<S, E>, l: Label<E>) {
    match l
    case Emit(ev, _, _) => Calm(p.g, p.initial, t.raw + [ev]) && (p.isReset(ev) ==> Restartable(p, t.raw, ev))
    case Reload(history) => Calm(p.g, p.initial, history)
    case _ => true
  }

  lemma IngestSound<S(!new), E(!new)>(p: Protocol<S, E>, t: System<S, E>, ev: E, hold: bool, evict: nat)
    requires Lawful(p) && Sound(p, t) && Complete(p, t) && Admissible(p, t, Emit(ev, hold, evict))
    ensures var u := Ingest(p, t, ev, hold, evict).(raw := t.raw + [ev]); Sound(p, u) && Complete(p, u)
  {
    hide FoldAll, Calm, Coalesced, Compresses, Restartable, Truthful, Exact;
    if p.isDelta(ev) && t.pending.Some? && p.g.merge(t.pending.value, ev).Some? {
      var out := History(t) + [t.pending.value];
      MergeCompresses(p.g, p.initial, t.raw, out, ev);
      assert out[..|out| - 1] == History(t);
    } else {
      FlushSound(p, t, evict);
      var u := Flush(p, t, evict);
      if p.isDelta(ev) && hold {
        assert History(u) + [] == History(u);
        PushCompresses(p.g, p.initial, t.raw, History(u), ev);
      } else if p.isReset(ev) {
        ResetComplete(p, u, ev, evict);
      } else {
        AppendComplete(p, u, ev, evict);
      }
    }
  }

  // --- The client keeps the invariant ----------------------------------------------

  lemma CalmBuildPrefix<S, E>(g: Algebra<S, E>, s: S, b: Build<E>, n: nat)
    requires Calm(g, s, b.seed + b.log) && n <= |b.log|
    ensures Calm(g, s, b.seed + b.log[..n])
  {
    assert (b.seed + b.log)[..|b.seed| + n] == b.seed + b.log[..n];
    CalmPrefix(g, s, b.seed + b.log, |b.seed| + n);
  }

  /** Whatever truthful message arrives, in whatever order, the client stays exact. */
  lemma ReceiveExact<S(!new), E(!new)>(p: Protocol<S, E>, builds: map<nat, Build<E>>, c: Client<S>, m: Message<E>)
    requires Lawful(p) && Exact(p, builds, c) && Truthful(p, builds, m) && m.epoch > 0
    requires forall e :: e in builds ==> Calm(p.g, p.initial, builds[e].seed + builds[e].log)
    ensures Exact(p, builds, Receive(p, c, m))
  {
    var b := builds[m.epoch];
    match m
    case Seed(_, n, _) =>
      CalmBuildPrefix(p.g, p.initial, b, n);
      CoalesceSound(p.g, p.initial, b.seed + b.log[..n]);
    case Live(e, n, event) =>
      if e == c.epoch && n == c.number + 1 {
        assert b.seed + b.log[..n] == (b.seed + b.log[..n - 1]) + [event];
        FoldAllPush(p.g.step, p.initial, b.seed + b.log[..n - 1], event);
      }
  }

  lemma BootstrapTruthful<S, E>(p: Protocol<S, E>, t: System<S, E>, home: bool, i: nat)
    requires t.epoch in t.builds && i < |Bootstrap(p, t, home).wire|
    ensures Truthful(p, t.builds, Bootstrap(p, t, home).wire[i])
  {
    hide Coalesced;
    WholeLog(Current(t));
  }

  lemma BootstrapSound<S, E>(p: Protocol<S, E>, t: System<S, E>, home: bool)
    requires Sound(p, t)
    ensures Sound(p, Bootstrap(p, t, home))
  {
    hide Truthful, Exact, Calm, FoldAll, Coalesced, Resumable;
    var u := Bootstrap(p, t, home);
    forall i | 0 <= i < |u.wire| ensures Truthful(p, t.builds, u.wire[i]) && u.wire[i] in u.sent {
      BootstrapTruthful(p, t, home, i);
      assert u.sent[|t.sent| + i] == u.wire[i];
    }
    forall i | 0 <= i < |u.sent| ensures Truthful(p, t.builds, u.sent[i]) {
      if i >= |t.sent| { assert u.sent[i] == u.wire[i - |t.sent|]; }
    }
  }

  lemma ReloadSound<S, E(!new)>(p: Protocol<S, E>, t: System<S, E>, history: seq<E>)
    requires Sound(p, t) && Calm(p.g, p.initial, history)
    ensures var u := Restart(p, t.(pending := None, raw := history), history); Sound(p, u) && Complete(p, u)
  {
    hide Calm, FoldAll;
    RestartSound(p, t.(pending := None, raw := history), history);
    assert history + [] == history;
  }

  lemma StepSound<S(!new), E(!new)>(p: Protocol<S, E>, t: System<S, E>, l: Label<E>)
    requires Lawful(p) && Sound(p, t) && Complete(p, t) && Admissible(p, t, l)
    ensures Sound(p, Step(p, t, l)) && Complete(p, Step(p, t, l))
  {
    hide Calm, FoldAll, Coalesced, Compresses, Receive, Ingest, Flush;
    match l
    case Emit(ev, hold, evict) => IngestSound(p, t, ev, hold, evict);
    case FlushTimer(evict) => FlushSound(p, t, evict);
    case Reload(history) => ReloadSound(p, t, history);
    case Deliver =>
      if t.connected && t.wire != [] {
        var i :| 0 <= i < |t.sent| && t.sent[i] == t.wire[0];
        ReceiveExact(p, t.builds, t.client, t.wire[0]);
      }
    case Reconnect(home) => BootstrapSound(p, t, home);
    case Focus =>
      WholeLog(Current(t));
      SendSound(p, t, t.(focused := true), SeedMessage(p, t.(focused := true)));
    case AnswerSeedRequest =>
      WholeLog(Current(t));
      SendSound(p, t, t, SeedMessage(p, t));
    case Disconnect =>
    case Scramble(_) =>
  }

  ghost predicate AdmissibleRun<S, E>(p: Protocol<S, E>, t: System<S, E>, ls: seq<Label<E>>)
    requires t.epoch in t.builds
  {
    ls == [] || (AdmissibleRun(p, t, ls[..|ls| - 1]) && Admissible(p, Run(p, t, ls[..|ls| - 1]), ls[|ls| - 1]))
  }

  /** A hub whose journal was just created from the driver's history, and a client that has seen nothing. */
  ghost predicate Fresh<S, E>(p: Protocol<S, E>, t: System<S, E>) {
    t.epoch > 0 && t.builds == map[t.epoch := Build(t.raw, [])] && t.pending.None? && t.evicted == 0
    && !t.connected && t.wire == [] && t.sent == [] && t.client == Client(0, 0, p.initial, false)
    && Calm(p.g, p.initial, t.raw)
  }

  /** Safety of every run, whatever the network loses, repeats or reorders: the client always shows the fold of a
      prefix of its build, and what the hub has journaled and held means everything the driver emitted. */
  lemma {:induction false} EveryRunSound<S(!new), E(!new)>(p: Protocol<S, E>, t: System<S, E>, ls: seq<Label<E>>)
    requires Lawful(p) && Fresh(p, t) && AdmissibleRun(p, t, ls)
    ensures Sound(p, Run(p, t, ls)) && Complete(p, Run(p, t, ls))
  {
    if ls == [] {
      assert t.raw + [] == t.raw;
    } else {
      EveryRunSound(p, t, ls[..|ls| - 1]);
      StepSound(p, Run(p, t, ls[..|ls| - 1]), ls[|ls| - 1]);
    }
  }

  /** A client at the hub's watermark, with nothing held back, shows everything the driver emitted. */
  lemma CurrentShowsEverything<S(!new), E(!new)>(p: Protocol<S, E>, t: System<S, E>, ls: seq<Label<E>>)
    requires Lawful(p) && Fresh(p, t) && AdmissibleRun(p, t, ls)
    requires var u := Run(p, t, ls);
      u.client.epoch == u.epoch && u.client.number == |Current(u).log| && u.pending.None?
    ensures var u := Run(p, t, ls); u.client.session == FoldAll(p.g.step, p.initial, u.raw)
  {
    EveryRunSound(p, t, ls);
    var u := Run(p, t, ls);
    WholeLog(Current(u));
    assert History(u) + [] == History(u);
  }

  // --- A connection that keeps order loses nothing -----------------------------------

  /** Reading the wire takes a client at `(epoch, number)` to `(e, n)` without ever seeing a gap. */
  predicate Leads<E>(epoch: nat, number: nat, wire: seq<Message<E>>, e: nat, n: nat)
    decreases |wire|
  {
    if wire == [] then epoch == e && number == n else
      match wire[0]
      case Seed(e', n', _) => Leads(e', n', wire[1..], e, n)
      case Live(e', n', _) =>
        if e' != epoch then Leads(epoch, number, wire[1..], e, n)
        else n' == number + 1 && Leads(epoch, n', wire[1..], e, n)
  }

  lemma {:induction false} LeadsOn<E>(epoch: nat, number: nat, wire: seq<Message<E>>, e: nat, n: nat, m: Message<E>)
    requires Leads(epoch, number, wire, e, n)
    requires m.Live? ==> m.epoch == e && m.number == n + 1
    ensures Leads(epoch, number, wire + [m], m.epoch, m.number)
    decreases |wire|
  {
    if wire == [] {
      assert wire + [m] == [m] && [m][1..] == [];
    } else {
      assert (wire + [m])[1..] == wire[1..] + [m];
      match wire[0]
      case Seed(e', n', _) => LeadsOn(e', n', wire[1..], e, n, m);
      case Live(e', n', _) =>
        if e' != epoch { LeadsOn(epoch, number, wire[1..], e, n, m); } else { LeadsOn(epoch, n', wire[1..], e, n, m); }
    }
  }

  lemma {:induction false} ReplayLeads<E>(epoch: nat, number: nat, wire: seq<Message<E>>)
    requires forall i :: 0 <= i < |wire| ==> wire[i].Live? && wire[i].epoch == epoch && wire[i].number == number + i + 1
    ensures Leads(epoch, number, wire, epoch, number + |wire|)
    decreases |wire|
  {
    if wire != [] {
      ReplayLeads(epoch, number + 1, wire[1..]);
    }
  }

  /** An ordered connection: the client has seen no gap and the wire holds none, and if the hub routes the session's
      events to it, what is on the wire brings it up to date. */
  ghost predicate Ordered<S, E>(t: System<S, E>)
    requires t.epoch in t.builds
  {
    !t.client.seedRequested
    && (!t.connected ==> t.wire == [])
    && (t.connected ==> exists e, n :: Leads(t.client.epoch, t.client.number, t.wire, e, n))
    && (t.connected && t.focused ==> Leads(t.client.epoch, t.client.number, t.wire, t.epoch, |Current(t).log|))
  }

  lemma AppendOrdered<S, E>(t: System<S, E>, ev: E, evict: nat)
    requires t.epoch in t.builds && Ordered(t)
    ensures Ordered(Append(t, ev, evict))
  {
    if t.connected && t.focused {
      LeadsOn(t.client.epoch, t.client.number, t.wire, t.epoch, |Current(t).log|, Live(t.epoch, |Current(t).log| + 1, ev));
    }
  }

  lemma RestartOrdered<S, E>(p: Protocol<S, E>, t: System<S, E>, seed: seq<E>)
    requires t.epoch in t.builds && Ordered(t)
    ensures Ordered(Restart(p, t, seed))
  {
    hide Coalesced;
    if t.connected && t.focused {
      var m: Message<E> := Seed(t.epoch + 1, 0, Coalesced(p.g.merge, seed + []));
      LeadsOn(t.client.epoch, t.client.number, t.wire, t.epoch, |Current(t).log|, m);
    }
  }

  lemma IngestNowOrdered<S, E>(p: Protocol<S, E>, t: System<S, E>, ev: E, evict: nat)
    requires t.epoch in t.builds && Ordered(t)
    ensures Ordered(IngestNow(p, t, ev, evict))
  {
    if p.isReset(ev) {
      RestartOrdered(p, t, p.restart(p.g.step(FoldAll(p.g.step, p.initial, Coalesced(p.g.merge, History(t))), ev), ev));
    } else {
      AppendOrdered(t, ev, evict);
    }
  }

  lemma FlushOrdered<S, E>(p: Protocol<S, E>, t: System<S, E>, evict: nat)
    requires t.epoch in t.builds && Ordered(t)
    ensures Ordered(Flush(p, t, evict))
  {
    if t.pending.Some? {
      IngestNowOrdered(p, t.(pending := None), t.pending.value, evict);
    }
  }

  /** A reconnect whose token the ring still covers is sent exactly the missed events, in order, and no seed; any other
      token is answered with one seed. */
  lemma ResumeReplaysGap<S, E>(p: Protocol<S, E>, t: System<S, E>, home: bool)
    requires t.epoch in t.builds && !t.client.seedRequested
    ensures var u := Bootstrap(p, t, home);
      Ordered(u)
      && ((exists i :: 0 <= i < |u.wire| && u.wire[i].Seed?) <==> !Resumable(t) && (t.client.epoch > 0 || home))
      && (Resumable(t) ==>
          var n := t.client.number;
          |u.wire| == |Current(t).log| - n
          && forall i :: 0 <= i < |u.wire| ==> u.wire[i] == Live(t.epoch, n + i + 1, Current(t).log[n + i]))
  {
    var u := Bootstrap(p, t, home);
    if Resumable(t) {
      ReplayLeads(t.client.epoch, t.client.number, u.wire);
    } else if u.wire != [] {
      assert u.wire[0].Seed? && u.wire[1..] == [];
      assert Leads(t.client.epoch, t.client.number, u.wire, t.epoch, |Current(t).log|);
    } else {
      assert Leads(t.client.epoch, t.client.number, u.wire, t.client.epoch, t.client.number);
    }
  }

  lemma FocusOrdered<S, E>(p: Protocol<S, E>, t: System<S, E>)
    requires t.epoch in t.builds && Ordered(t) && t.connected
    ensures Ordered(Send(t.(focused := true), SeedMessage(p, t.(focused := true))))
  {
    hide Coalesced;
    var e, n :| Leads(t.client.epoch, t.client.number, t.wire, e, n);
    LeadsOn(t.client.epoch, t.client.number, t.wire, e, n, SeedMessage(p, t.(focused := true)));
  }

  lemma DeliverOrdered<S, E>(p: Protocol<S, E>, t: System<S, E>)
    requires t.epoch in t.builds && Ordered(t) && t.connected && t.wire != []
    ensures Ordered(t.(client := Receive(p, t.client, t.wire[0]), wire := t.wire[1..]))
  {
    hide FoldAll;
    var e, n :| Leads(t.client.epoch, t.client.number, t.wire, e, n);
    var c := Receive(p, t.client, t.wire[0]);
    assert Leads(c.epoch, c.number, t.wire[1..], e, n);
  }

  lemma StepOrdered<S, E>(p: Protocol<S, E>, t: System<S, E>, l: Label<E>)
    requires t.epoch in t.builds && Ordered(t) && !l.Scramble?
    ensures Ordered(Step(p, t, l))
  {
    hide Receive, Leads, FoldAll, Coalesced;
    match l
    case Emit(ev, hold, evict) =>
      FlushOrdered(p, t, evict);
      IngestNowOrdered(p, Flush(p, t, evict), ev, evict);
    case FlushTimer(evict) => FlushOrdered(p, t, evict);
    case Reload(history) => RestartOrdered(p, t.(pending := None, raw := history), history);
    case Reconnect(home) => ResumeReplaysGap(p, t, home);
    case Focus => if t.connected { FocusOrdered(p, t); }
    case Deliver => if t.connected && t.wire != [] { DeliverOrdered(p, t); }
    case _ =>
  }

  lemma {:induction false} EveryRunOrdered<S, E>(p: Protocol<S, E>, t: System<S, E>, ls: seq<Label<E>>)
    requires Fresh(p, t) && forall i :: 0 <= i < |ls| ==> !ls[i].Scramble?
    ensures Ordered(Run(p, t, ls))
  {
    if ls != [] {
      EveryRunOrdered(p, t, ls[..|ls| - 1]);
      StepOrdered(p, Run(p, t, ls[..|ls| - 1]), ls[|ls| - 1]);
    }
  }

  function Deliveries<E>(n: nat): seq<Label<E>> {
    seq(n, _ => Deliver)
  }

  lemma OneMoreDelivery<S, E>(p: Protocol<S, E>, t: System<S, E>, ls: seq<Label<E>>, n: nat)
    requires t.epoch in t.builds && n > 0
    ensures (ls + Deliveries(n))[..|ls + Deliveries(n)| - 1] == ls + Deliveries(n - 1)
    ensures Run(p, t, ls + Deliveries(n)) == Step(p, Run(p, t, ls + Deliveries(n - 1)), Deliver)
  {
    hide Step;
    assert (ls + Deliveries(n))[..|ls| + n - 1] == ls + Deliveries(n - 1);
  }

  lemma {:induction false} DeliverMore<S, E>(p: Protocol<S, E>, t: System<S, E>, ls: seq<Label<E>>, n: nat)
    requires t.epoch in t.builds && Run(p, t, ls).connected && n <= |Run(p, t, ls).wire|
    ensures var u, v := Run(p, t, ls), Run(p, t, ls + Deliveries(n));
      v == u.(client := v.client, wire := u.wire[n..])
  {
    hide Run, Receive;
    if n == 0 {
      assert ls + Deliveries(0) == ls;
    } else {
      DeliverMore(p, t, ls, n - 1);
      OneMoreDelivery(p, t, ls, n);
    }
  }

  lemma {:induction false} DeliveriesAdmissible<S, E>(p: Protocol<S, E>, t: System<S, E>, ls: seq<Label<E>>, n: nat)
    requires t.epoch in t.builds && AdmissibleRun(p, t, ls)
    ensures AdmissibleRun(p, t, ls + Deliveries(n))
  {
    hide Run, Step;
    if n == 0 {
      assert ls + Deliveries(0) == ls;
    } else {
      DeliveriesAdmissible(p, t, ls, n - 1);
      OneMoreDelivery(p, t, ls, n);
    }
  }

  /** The last of the labels that connect or disconnect connects. */
  predicate Online<E>(ls: seq<Label<E>>) {
    ls != [] && (ls[|ls| - 1].Reconnect? || (!ls[|ls| - 1].Disconnect? && Online(ls[..|ls| - 1])))
  }

  /** The client is online, and since it went online it has opened the session, or it went online on the default session or
      with a token that the ring covered. */
  ghost predicate Attached<S, E>(p: Protocol<S, E>, t: System<S, E>, ls: seq<Label<E>>)
    requires t.epoch in t.builds
  {
    ls != [] &&
    var init := ls[..|ls| - 1];
    match ls[|ls| - 1]
    case Reconnect(home) => home || Resumable(Run(p, t, init))
    case Disconnect => false
    case Focus => Online(init)
    case _ => Attached(p, t, init)
  }

  lemma ConnectionStep<S, E>(p: Protocol<S, E>, t: System<S, E>, l: Label<E>)
    requires t.epoch in t.builds
    ensures var u := Step(p, t, l);
      && u.connected == (l.Reconnect? || (!l.Disconnect? && t.connected))
      && (u.connected && u.focused <==>
          match l
          case Reconnect(home) => home || Resumable(t)
          case Disconnect => false
          case Focus => t.connected
          case _ => t.connected && t.focused)
  {
    hide Coalesced, FoldAll;
  }

  /** For every run: exactly when the client is connected, and connected with the session in focus. */
  lemma {:induction false} AttachedExactly<S, E>(p: Protocol<S, E>, t: System<S, E>, ls: seq<Label<E>>)
    requires Fresh(p, t)
    ensures var u := Run(p, t, ls); (u.connected <==> Online(ls)) && (u.connected && u.focused <==> Attached(p, t, ls))
  {
    if ls != [] {
      hide Step, Calm, FoldAll, Coalesced;
      AttachedExactly(p, t, ls[..|ls| - 1]);
      ConnectionStep(p, Run(p, t, ls[..|ls| - 1]), ls[|ls| - 1]);
    }
  }

  /** What is held back is committed. */
  lemma FlushRun<S, E>(p: Protocol<S, E>, t: System<S, E>, ls: seq<Label<E>>, evict: nat)
    requires Fresh(p, t) && AdmissibleRun(p, t, ls)
    ensures var more := ls + [FlushTimer(evict)];
      var u, v := Run(p, t, ls), Run(p, t, more);
      AdmissibleRun(p, t, more) && v == Flush(p, u, evict) && v.pending.None? && v.raw == u.raw
      && v.connected == u.connected && v.focused == u.focused
  {
    assert (ls + [FlushTimer(evict)])[..|ls|] == ls;
    hide Coalesced, FoldAll, Calm;
  }

  /** Every run over an ordered connection, however often it drops and resumes: the client never has to ask for a
      seed, and one that has the session in focus, once what is held back is flushed and it has read the wire, shows
      everything the driver emitted. */
  lemma CatchesUp<S(!new), E(!new)>(p: Protocol<S, E>, t: System<S, E>, ls: seq<Label<E>>, evict: nat)
    requires Lawful(p) && Fresh(p, t) && AdmissibleRun(p, t, ls) && Attached(p, t, ls)
    requires forall i :: 0 <= i < |ls| ==> !ls[i].Scramble?
    ensures var flushed := ls + [FlushTimer(evict)];
      var v := Run(p, t, flushed + Deliveries(|Run(p, t, flushed).wire|));
      !v.client.seedRequested && v.client.session == FoldAll(p.g.step, p.initial, Run(p, t, ls).raw)
  {
    var flushed := ls + [FlushTimer(evict)];
    hide Lawful, Run, AdmissibleRun, Flush, Attached, Online, Coalesced, Calm, FoldAll;
    AttachedExactly(p, t, ls);
    FlushRun(p, t, ls, evict);
    var u := Run(p, t, flushed);
    var more := flushed + Deliveries(|u.wire|);
    DeliverMore(p, t, flushed, |u.wire|);
    EveryRunOrdered(p, t, more);
    DeliveriesAdmissible(p, t, flushed, |u.wire|);
    CurrentShowsEverything(p, t, more);
  }

  /** A delta is held back if and only if there is one held that it merges with, or it is to be held; merged, it sends
      nothing. A ring gives up whatever it is told to, and no more than it has. */
  lemma HeldExactly<S(!new), E(!new)>(p: Protocol<S, E>, t: System<S, E>, ev: E, hold: bool, evict: nat)
    requires t.epoch in t.builds && Lawful(p)
    ensures var u := Step(p, t, Emit(ev, hold, evict));
      var merges := t.pending.Some? && p.g.merge(t.pending.value, ev).Some?;
      && (u.pending.Some? <==> p.isDelta(ev) && (hold || merges))
      && (p.isDelta(ev) && merges ==> u.builds == t.builds && u.sent == t.sent && u.pending == p.g.merge(t.pending.value, ev))
      && (t.pending.None? && !u.pending.Some? && !p.isReset(ev) && t.evicted <= evict <= |Current(t).log| + 1 ==> u.evicted == evict)
  {
    hide Coalesced, FoldAll, MergeSound, MergeLocal;
  }

  // --- Gaps ---------------------------------------------------------------------------------

  /** A client asks for a seed if and only if the event it is given is of its own build and not the next one; an event of
      another build changes nothing. */
  lemma AsksExactly<S, E>(p: Protocol<S, E>, c: Client<S>, m: Message<E>)
    ensures var d := Receive(p, c, m);
      && (d.seedRequested <==> m.Live? && if m.epoch == c.epoch then m.number != c.number + 1 else c.seedRequested)
      && (m.Live? && (m.epoch != c.epoch || m.number != c.number + 1) ==> d == c.(seedRequested := d.seedRequested))
  {
    hide FoldAll;
  }

  lemma AnswerStep<S, E>(p: Protocol<S, E>, t: System<S, E>)
    requires t.epoch in t.builds && t.connected && t.focused && t.client.seedRequested
    ensures Step(p, t, AnswerSeedRequest) == t.(wire := t.wire + [SeedMessage(p, t)], sent := t.sent + [SeedMessage(p, t)])
  {
    hide Coalesced, FoldAll;
  }

  lemma ReadSeed<S, E>(p: Protocol<S, E>, t: System<S, E>)
    requires t.epoch in t.builds && t.connected && t.wire == [SeedMessage(p, t)]
    ensures var c := Step(p, t, Deliver).client; c.epoch == t.epoch && c.number == |Current(t).log| && !c.seedRequested
  {
    hide Coalesced, FoldAll;
  }

  /**
   Whatever the network has lost, repeated or reordered: once a request for a seed is answered and the wire is read, the
   client shows everything the driver has emitted, nothing being held back.
   */
  lemma AnsweredShowsEverything<S(!new), E(!new)>(p: Protocol<S, E>, t: System<S, E>, ls: seq<Label<E>>)
    requires Lawful(p) && Fresh(p, t) && AdmissibleRun(p, t, ls) && Attached(p, t, ls)
    requires Run(p, t, ls).client.seedRequested && Run(p, t, ls).pending.None?
    ensures var answered := ls + [AnswerSeedRequest];
      var v := Run(p, t, answered + Deliveries(|Run(p, t, ls).wire| + 1));
      !v.client.seedRequested && v.client.session == FoldAll(p.g.step, p.initial, Run(p, t, ls).raw)
  {
    var answered, u := ls + [AnswerSeedRequest], Run(p, t, ls);
    AttachedExactly(p, t, ls);
    assert answered[..|ls|] == ls;
    AnswerStep(p, u);
    assert AdmissibleRun(p, t, answered);
    hide Lawful, Step, Coalesced, FoldAll, Calm;
    var n := |u.wire|;
    var a := Run(p, t, answered);
    assert a == Step(p, u, AnswerSeedRequest);
    DeliverMore(p, t, answered, n);
    OneMoreDelivery(p, t, answered, n + 1);
    DeliveriesAdmissible(p, t, answered, n + 1);
    var w := Run(p, t, answered + Deliveries(n));
    assert w.wire == [SeedMessage(p, w)];
    ReadSeed(p, w);
    DeliverMore(p, t, answered, n + 1);
    hide Run, AdmissibleRun;
    CurrentShowsEverything(p, t, answered + Deliveries(n + 1));
  }

  /** After a reconnect the client gets the session's next event if and only if the ring covered its token or the session
      is the hub's default. */
  lemma KeepsUpExactly<S, E>(p: Protocol<S, E>, t: System<S, E>, home: bool, ev: E, evict: nat)
    requires t.epoch in t.builds && t.pending.None? && !p.isDelta(ev) && !p.isReset(ev)
    ensures var u := Step(p, Bootstrap(p, t, home), Emit(ev, false, evict));
      Live(t.epoch, |Current(t).log| + 1, ev) in u.wire <==> home || Resumable(t)
  {
    hide Coalesced, FoldAll;
    var b := Bootstrap(p, t, home);
    var u := Step(p, b, Emit(ev, false, evict));
    var m: Message<E> := Live(t.epoch, |Current(t).log| + 1, ev);
    if home || Resumable(t) {
      assert u.wire == b.wire + [m];
      assert u.wire[|b.wire|] == m;
    } else {
      assert u.wire == b.wire && forall i :: 0 <= i < |b.wire| ==> b.wire[i].Seed?;
    }
  }

  /** Until the client opens the session or reconnects. */
  ghost predicate StaysAway<E>(ls: seq<Label<E>>) {
    forall i :: 0 <= i < |ls| ==> !ls[i].Focus? && !ls[i].Reconnect?
  }

  lemma UnfocusedIngest<S, E>(p: Protocol<S, E>, t: System<S, E>, ev: E, evict: nat)
    requires t.epoch in t.builds && !t.focused
    ensures var u := IngestNow(p, t, ev, evict); !u.focused && u.sent == t.sent
  {
    hide Coalesced, FoldAll;
  }

  lemma UnfocusedStep<S, E>(p: Protocol<S, E>, t: System<S, E>, l: Label<E>)
    requires t.epoch in t.builds && !t.focused && !l.Focus? && !l.Reconnect?
    ensures var u := Step(p, t, l); !u.focused && u.sent == t.sent
  {
    hide IngestNow, Coalesced, FoldAll;
    if t.pending.Some? {
      match l
      case Emit(ev, hold, evict) => UnfocusedIngest(p, t.(pending := None), t.pending.value, evict);
      case FlushTimer(evict) => UnfocusedIngest(p, t.(pending := None), t.pending.value, evict);
      case _ =>
    }
    if l.Emit? {
      UnfocusedIngest(p, Flush(p, t, l.evict), l.ev, l.evict);
    }
  }

  lemma {:induction false} UnfocusedRun<S, E>(p: Protocol<S, E>, t: System<S, E>, ls: seq<Label<E>>)
    requires t.epoch in t.builds && !t.focused && StaysAway(ls)
    ensures var u := Run(p, t, ls); !u.focused && u.sent == t.sent
  {
    if ls != [] {
      hide Step;
      UnfocusedRun(p, t, ls[..|ls| - 1]);
      UnfocusedStep(p, Run(p, t, ls[..|ls| - 1]), ls[|ls| - 1]);
    }
  }

  /** After a reconnect with a token, nothing more of the session is sent through any run, whatever is emitted, reloaded or
      asked for, until the client opens the session or reconnects, if and only if the ring did not cover the token and the
      session is not the hub's default. */
  lemma SilentExactly<S(!new), E(!new)>(p: Protocol<S, E>, t: System<S, E>, home: bool)
    requires t.epoch in t.builds
    ensures var b := Bootstrap(p, t, home);
      (forall ls :: StaysAway(ls) ==> Run(p, b, ls).sent == b.sent) <==> !home && !Resumable(t)
  {
    var b := Bootstrap(p, t, home);
    if home || Resumable(t) {
      var ls: seq<Label<E>> := [Reload([])];
      assert StaysAway(ls) && |Run(p, b, ls).sent| > |b.sent| by { ReloadSends(p, b); }
    } else {
      forall ls | StaysAway(ls)
        ensures Run(p, b, ls).sent == b.sent
      {
        UnfocusedRun(p, b, ls);
      }
    }
  }

  lemma ReloadSends<S, E>(p: Protocol<S, E>, t: System<S, E>)
    requires t.epoch in t.builds && t.connected && t.focused
    ensures |Run(p, t, [Reload([])]).sent| > |t.sent|
  {
    hide Coalesced;
    var ls: seq<Label<E>> := [Reload([])];
    assert ls[..0] == [];
    assert Run(p, t, ls[..0]) == t;
  }
}
