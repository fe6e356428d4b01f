/**
 Concurrent agents landing their commits on main (scripts/integrate-into-main.sh, scripts/README.md:36-59).
 Processes share one repository; every step of every process, the clock, crashes and signals interleave freely. The
 lock file lies at a process's root, which is the root of its own workspace unless the environment names another.
 Reading the lock and overwriting it in a takeover are two steps, as they are in the script. Each workspace has a history
 of its own, which a rebase moves and which the restore of any process moves back with all others.
 */
module MergeLock {
  import opened Logs
  import opened Options

  const STALE_THRESHOLD := 1800

  datatype Commit = Commit(issue: nat, change: nat)

  datatype Lock = Lock(pid: nat, session: string, stamp: nat)

  /** `before` is the repository when the operation to restore was captured, `base` the main the commit was rebased onto
      and the gate ran on, and `main` the main that the bookmark move left. */
  datatype Phase =
    | Waiting
    | TakingOver
    | Holding
    | Rebased(before: Repo, base: seq<Commit>)
    | Moved(before: Repo, main: seq<Commit>)
    | Pushed(before: Repo, main: seq<Commit>)
    | Exited(code: nat)
    | Killed

  /** `stamp` is the time at which the process began to wait: the script fixes its lock contents then. */
  datatype Proc = Proc(ws: nat, root: nat, session: string, issue: nat, stamp: nat, phase: Phase)

  /** The history of a workspace: the main it sits on, and its own non-empty commits above that. */
  datatype Line = Line(on: seq<Commit>, own: seq<Commit>)

  /** Local main, main at the origin, and the history of each workspace. */
  datatype Repo = Repo(local: seq<Commit>, origin: seq<Commit>, work: map<nat, Line>, nextChange: nat)

  datatype State = State(clock: nat, locks: map<nat, Lock>, procs: map<nat, Proc>, repo: Repo)

  datatype Label =
    | Tick(seconds: nat)
    | Checkout(ws: nat)       // put a workspace on main
    | Author(ws: nat, issues: seq<nat>)
    | Outside(issue: nat)     // someone else pushes a commit to the origin
    | FetchElsewhere          // a fetch in any workspace, outside the script
    | Launch(p: nat, ws: nat, root: nat, session: string, issue: nat)
    | Create(p: nat) | Decide(p: nat) | Write(p: nat)
    | Rebase(p: nat) | Conflict(p: nat) | Abort(p: nat, status: nat) | FailedRestore(p: nat)
    | Move(p: nat) | Push(p: nat) | Finish(p: nat)
    | Signal(p: nat, term: bool) | Kill(p: nat)

  // --- Processes and the lock ---------------------------------------------------------

  predicate Dead(ph: Phase) {
    ph.Exited? || ph.Killed?
  }

  predicate Integrating(ph: Phase) {
    ph.Holding? || ph.Rebased? || ph.Moved? || ph.Pushed?
  }

  predicate Alive(s: State, p: nat) {
    p in s.procs && !Dead(s.procs[p].phase)
  }

  predicate Critical(s: State, p: nat) {
    p in s.procs && Integrating(s.procs[p].phase)
  }

  predicate Is(s: State, p: nat, ph: Phase) {
    p in s.procs && s.procs[p].phase == ph
  }

  function At(s: State, p: nat, ph: Phase): State
    requires p in s.procs
  {
    s.(procs := s.procs[p := s.procs[p].(phase := ph)])
  }

  function LockAt(s: State, root: nat): Option<Lock> {
    if root in s.locks then Some(s.locks[root]) else None
  }

  /** The lock file a process looks at. */
  function LockOf(s: State, p: nat): Option<Lock>
    requires p in s.procs
  {
    LockAt(s, s.procs[p].root)
  }

  function Locking(s: State, p: nat, stamp: nat): State
    requires p in s.procs
  {
    s.(locks := s.locks[s.procs[p].root := Lock(p, s.procs[p].session, stamp)])
  }

  /** Leave with the lock removed, if it is still this process's own. */
  function Leave(s: State, p: nat, code: nat): State
    requires p in s.procs
  {
    var k := LockOf(s, p);
    var mine := k.Some? && k.value.pid == p && k.value.session == s.procs[p].session;
    At(if mine then s.(locks := s.locks - {s.procs[p].root}) else s, p, Exited(code))
  }

  /** The decision table for a lock whose process is dead. */
  predicate MayTake(s: State, p: nat)
    requires p in s.procs
  {
    var k, session := LockOf(s, p), s.procs[p].session;
    && k.Some? && !Alive(s, k.value.pid)
    && ((k.value.session == session && session != "") || s.clock >= k.value.stamp + STALE_THRESHOLD)
  }

  // --- The repository --------------------------------------------------------------------

  function LineAt(r: Repo, ws: nat): Line {
    if ws in r.work then r.work[ws] else Line([], [])
  }

  /** The history a workspace shows, down to its last commit. */
  function Head(r: Repo, ws: nat): seq<Commit> {
    LineAt(r, ws).on + LineAt(r, ws).own
  }

  /** The commits of a history that are not on main. The same change elsewhere in history is another commit. */
  function Above(line: seq<Commit>, main: seq<Commit>): seq<Commit> {
    if line != [] && main != [] && line[0] == main[0] then Above(line[1..], main[1..]) else line
  }

  /** The non-empty commits above main, `main..@ ~ empty()`. */
  function Work(r: Repo, ws: nat): seq<Commit> {
    Above(Head(r, ws), r.local)
  }

  /** The checks made before the lock: one commit at most, and it names the issue. */
  predicate Acceptable(w: seq<Commit>, issue: nat) {
    w == [] || (|w| == 1 && w[0].issue == issue)
  }

  function Authored(issues: seq<nat>, nextChange: nat): seq<Commit> {
    seq(|issues|, i requires 0 <= i < |issues| => Commit(issues[i], nextChange + i))
  }

  /** New commits take the place of the workspace's own. */
  function Writing(r: Repo, ws: nat, issues: seq<nat>): Repo {
    r.(work := r.work[ws := Line(LineAt(r, ws).on, Authored(issues, r.nextChange))], nextChange := r.nextChange + |issues|)
  }

  function Fetched(r: Repo): Repo {
    if r.local <= r.origin then r.(local := r.origin) else r
  }

  /** Where the script rebases to: local main, unless the origin has commits that local main does not. */
  function Destination(r: Repo): seq<Commit> {
    if r.origin <= r.local then r.local else r.origin
  }

  predicate Carries(cs: seq<Commit>, change: nat) {
    exists i :: 0 <= i < |cs| && cs[i].change == change
  }

  /** Rebase the workspace's commit. A change that its destination carries already is left empty, and is no longer seen. */
  function Onto(r: Repo, ws: nat): Repo {
    var w, to := Work(r, ws), Destination(r);
    if |w| == 1 then r.(work := r.work[ws := Line(to, if Carries(to, w[0].change) then [] else w)]) else r
  }

  /** The bookmark can be moved: there is one commit to move it to, and main is below it. */
  predicate Continues(r: Repo, ws: nat) {
    |Work(r, ws)| == 1 && r.local <= Head(r, ws)
  }

  /** The workspace's commit becomes the top of main. */
  function Landed(r: Repo, ws: nat): Repo {
    r.(local := Head(r, ws), work := r.work[ws := Line(Head(r, ws), [])])
  }

  /** The process has captured an operation to go back to. */
  predicate Captured(ph: Phase) {
    ph.Rebased? || ph.Moved? || ph.Pushed?
  }

  /** Restore the operation captured before the rebase: main and the history of every workspace. */
  function Restored(r: Repo, ph: Phase): Repo {
    if Captured(ph) then r.(local := ph.before.local, work := ph.before.work) else r
  }

  // --- Steps ---------------------------------------------------------------------------------

  /** A step that is not enabled changes nothing. */
  function Step(s: State, l: Label): State {
    match l
    case Tick(d) => s.(clock := s.clock + d)
    case Checkout(ws) => s.(repo := s.repo.(work := s.repo.work[ws := Line(s.repo.local, [])]))
    case Author(ws, issues) => s.(repo := Writing(s.repo, ws, issues))
    case Outside(issue) =>
      s.(repo := s.repo.(origin := s.repo.origin + [Commit(issue, s.repo.nextChange)], nextChange := s.repo.nextChange + 1))
    case FetchElsewhere => s.(repo := Fetched(s.repo))
    case Launch(p, ws, root, session, issue) =>
      if p in s.procs then s
      else
        var ph := if Acceptable(Work(s.repo, ws), issue) then Waiting else Exited(1);
        s.(procs := s.procs[p := Proc(ws, root, session, issue, s.clock, ph)])
    case Create(p) =>
      if Is(s, p, Waiting) && LockOf(s, p) == None then At(Locking(s, p, s.procs[p].stamp), p, Holding) else s
    case Decide(p) => if Is(s, p, Waiting) && MayTake(s, p) then At(s, p, TakingOver) else s
    case Write(p) => if Is(s, p, TakingOver) then At(Locking(s, p, s.clock), p, Holding) else s
    case Rebase(p) => if Is(s, p, Holding) then Rebasing(s, p) else s
    case Conflict(p) =>
      if Is(s, p, Holding) && Work(Fetched(s.repo), s.procs[p].ws) != []
      then At(s.(repo := Onto(Fetched(s.repo), s.procs[p].ws)), p, Exited(2)) else s
    case Abort(p, status) => if Critical(s, p) then Aborting(s, p, status) else s
    case FailedRestore(p) => if p in s.procs && Captured(s.procs[p].phase) then Leave(s, p, 1) else s
    case Move(p) => if p in s.procs && s.procs[p].phase.Rebased? then Moving(s, p) else s
    case Push(p) =>
      if p in s.procs && s.procs[p].phase.Moved? && s.repo.origin <= s.repo.local
      then At(s.(repo := s.repo.(origin := s.repo.local)), p, Pushed(s.procs[p].phase.before, s.procs[p].phase.main)) else s
    case Finish(p) => if p in s.procs && s.procs[p].phase.Pushed? then Leave(s, p, 0) else s
    case Signal(p, term) =>
      if Critical(s, p)
      then Leave(s.(repo := Restored(s.repo, s.procs[p].phase)), p, if term then 143 else 130) else s
    case Kill(p) => if Alive(s, p) then At(s, p, Killed) else s
  }

  /** Fetch, then stop with success if there is nothing above main, else rebase. With more than one commit the working
      copy cannot be put back on top of them, and the rebase is undone. */
  function Rebasing(s: State, p: nat): State
    requires p in s.procs
  {
    var t := s.(repo := Fetched(s.repo));
    var w := Work(t.repo, s.procs[p].ws);
    if w == [] then Leave(t, p, 0)
    else if |w| > 1 then Leave(t, p, 1)
    else At(t.(repo := Onto(t.repo, s.procs[p].ws)), p, Rebased(t.repo, Destination(t.repo)))
  }

  /** A failure: before the bookmark moves the repository is restored, and the gate's own status becomes the exit code. */
  function Aborting(s: State, p: nat, status: nat): State
    requires p in s.procs
  {
    var ph := s.procs[p].phase;
    if ph.Rebased? then Leave(s.(repo := Restored(s.repo, ph)), p, if status == 0 then 1 else status)
    else Leave(s, p, 1)
  }

  /** Advance main over the workspace's commit. Refused once, the script fetches and rebases again, without the gate, and
      tries a second time. More than one commit it can name to jj in neither. */
  function Moving(s: State, p: nat): State
    requires p in s.procs && s.procs[p].phase.Rebased?
  {
    var ws, before := s.procs[p].ws, s.procs[p].phase.before;
    if Work(s.repo, ws) == [] then Leave(s, p, 1)
    else if Continues(s.repo, ws) then At(s.(repo := Landed(s.repo, ws)), p, Moved(before, Head(s.repo, ws)))
    else
      var r := Onto(Fetched(s.repo), ws);
      if Continues(r, ws) then At(s.(repo := Landed(r, ws)), p, Moved(before, Head(r, ws)))
      else Leave(s.(repo := r), p, 1)
  }

  function Run(ls: seq<Label>): State {
    FoldAll(Step, Start, ls)
  }

  const Start := State(0, map[], map[], Repo([], [], map[], 0))

  // --- Mutual exclusion ---------------------------------------------------------------------

  /** A lock names a process of its root and session, which integrates as long as it lives. Every run keeps this. */
  ghost predicate LockNamesWorker(s: State) {
    forall root :: root in s.locks ==>
      var k := s.locks[root];
      && k.pid in s.procs && s.procs[k.pid].root == root && s.procs[k.pid].session == k.session
      && (Alive(s, k.pid) ==> Critical(s, k.pid))
  }

  /** Whoever integrates is named by the lock at its root: at each root at most one process does. */
  ghost predicate OwnsLock(s: State) {
    forall p :: Critical(s, p) ==> LockOf(s, p).Some? && LockOf(s, p).value.pid == p
  }

  /** At most one process integrates, and the lock at its root names it. */
  ghost predicate Exclusive(s: State) {
    OwnsLock(s) && forall p, q :: Critical(s, p) && Critical(s, q) ==> p == q
  }

  /** The lock at this root names a living process. */
  predicate Held(s: State, root: nat) {
    root in s.locks && Alive(s, s.locks[root].pid)
  }

  /** The step brings its process into the critical section. */
  predicate Enters(s: State, l: Label) {
    || (l.Create? && Is(s, l.p, Waiting) && LockOf(s, l.p) == None)
    || (l.Write? && Is(s, l.p, TakingOver))
  }

  /** A takeover whose lock has meanwhile come to name a living process. */
  predicate UnsafeWrite(s: State, l: Label) {
    l.Write? && Is(s, l.p, TakingOver) && Held(s, s.procs[l.p].root)
  }

  /** A process enters while a lock, at its own root or at another, names a living process. */
  ghost predicate Intrudes(s: State, l: Label) {
    Enters(s, l) && exists root :: Held(s, root)
  }

  /** What a step of process p can do to processes and locks: change its own phase, and with it leave the locks alone,
      take the one at its root, or remove its own. */
  predicate Moves(s: State, p: nat, t: State) {
    && p in s.procs && p in t.procs && t.procs == s.procs[p := s.procs[p].(phase := t.procs[p].phase)]
    && !Dead(s.procs[p].phase) && (Critical(s, p) ==> Critical(t, p) || Dead(t.procs[p].phase))
    && var root := s.procs[p].root;
       || (t.locks == s.locks && (Critical(t, p) ==> Critical(s, p)))
       || (Dead(t.procs[p].phase) && LockOf(s, p).Some? && LockOf(s, p).value.pid == p && t.locks == s.locks - {root})
       || (!Critical(s, p) && t.procs[p].phase == Holding && root in t.locks && t.locks[root].pid == p
           && t.locks[root].session == s.procs[p].session && t.locks == s.locks[root := t.locks[root]])
  }

  lemma LeaveMoves(s: State, r: Repo, p: nat, code: nat)
    requires Critical(s, p)
    ensures Moves(s, p, Leave(s.(repo := r), p, code))
  {
  }

  lemma RebaseMoves(s: State, p: nat)
    requires Is(s, p, Holding)
    ensures Moves(s, p, Rebasing(s, p))
  {
    hide Fetched, Destination, Onto, Work;
    LeaveMoves(s, Fetched(s.repo), p, 0);
    LeaveMoves(s, Fetched(s.repo), p, 1);
  }

  lemma AbortMoves(s: State, p: nat, status: nat)
    requires Critical(s, p)
    ensures Moves(s, p, Aborting(s, p, status))
  {
    hide Restored;
    LeaveMoves(s, s.repo, p, 1);
    LeaveMoves(s, Restored(s.repo, s.procs[p].phase), p, if status == 0 then 1 else status);
  }

  lemma MoveMoves(s: State, p: nat)
    requires p in s.procs && s.procs[p].phase.Rebased?
    ensures Moves(s, p, Moving(s, p))
  {
    hide Fetched, Destination, Landed, Onto, Work, Continues, Head;
    LeaveMoves(s, s.repo, p, 1);
    LeaveMoves(s, Onto(Fetched(s.repo), s.procs[p].ws), p, 1);
  }

  /** The step is one of a running process. */
  predicate OfProcess(l: Label) {
    !l.Tick? && !l.Checkout? && !l.Author? && !l.Outside? && !l.FetchElsewhere? && !l.Launch?
  }

  /** The step belongs to a process that is there. */
  predicate Acts(s: State, l: Label) {
    OfProcess(l) && l.p in s.procs
  }

  /** The steps of a waiting process, and its end. */
  lemma WaitMoves(s: State, l: Label)
    requires Acts(s, l) && (l.Create? || l.Decide? || l.Write? || l.Kill?)
    ensures var t := Step(s, l);
            || (t.procs == s.procs && t.locks == s.locks && !Enters(s, l))
            || (Moves(s, l.p, t) && (Enters(s, l) <==> !Critical(s, l.p) && Critical(t, l.p)))
  {
  }

  /** The steps of the critical section. */
  lemma WorkMoves(s: State, l: Label)
    requires Acts(s, l) && !l.Create? && !l.Decide? && !l.Write? && !l.Kill?
    ensures var t := Step(s, l); t == s || (Critical(s, l.p) && Moves(s, l.p, t))
  {
    hide Fetched, Restored, Landed, Destination, Work, Onto, Rebasing, Aborting, Moving, Leave, LockAt;
    match l
    case Rebase(p) => if Is(s, p, Holding) { RebaseMoves(s, p); }
    case Abort(p, status) => if Critical(s, p) { AbortMoves(s, p, status); }
    case FailedRestore(p) => if Captured(s.procs[p].phase) { LeaveMoves(s, s.repo, p, 1); }
    case Move(p) => if s.procs[p].phase.Rebased? { MoveMoves(s, p); }
    case Finish(p) => if s.procs[p].phase.Pushed? { LeaveMoves(s, s.repo, p, 0); }
    case Signal(p, term) =>
      if Critical(s, p) { LeaveMoves(s, Restored(s.repo, s.procs[p].phase), p, if term then 143 else 130); }
    case _ =>
  }

  /** Every step is one of these, or starts a process, or touches neither processes nor locks. */
  lemma StepMoves(s: State, l: Label)
    ensures var t := Step(s, l);
            || (t.procs == s.procs && t.locks == s.locks && !Enters(s, l))
            || (l.Launch? && l.p !in s.procs && l.p in t.procs && t.locks == s.locks && t.procs == s.procs[l.p := t.procs[l.p]]
                && !Integrating(t.procs[l.p].phase))
            || (Acts(s, l) && Moves(s, l.p, t) && (Enters(s, l) <==> !Critical(s, l.p) && Critical(t, l.p)))
  {
    if Acts(s, l) {
      hide Step, Moves;
      if l.Create? || l.Decide? || l.Write? || l.Kill? { WaitMoves(s, l); } else { WorkMoves(s, l); }
    } else {
      hide Acceptable, Work, Fetched, Writing;
    }
  }

  lemma StepNamesWorker(s: State, l: Label)
    requires LockNamesWorker(s)
    ensures LockNamesWorker(Step(s, l))
  {
    StepMoves(s, l);
    hide Step;
    var t := Step(s, l);
    forall root | root in t.locks
      ensures var k := t.locks[root];
              && k.pid in t.procs && t.procs[k.pid].root == root && t.procs[k.pid].session == k.session
              && (Alive(t, k.pid) ==> Critical(t, k.pid))
    {
      if root in s.locks { assert s.locks[root].pid in s.procs; }
    }
  }

  /** The only process a step can bring into its critical section is its own, and the lock at its root then names it. */
  lemma Entering(s: State, l: Label, p: nat)
    requires !Critical(s, p) && Critical(Step(s, l), p)
    ensures Enters(s, l) && l.p == p
    ensures var t := Step(s, l); LockOf(t, p).Some? && LockOf(t, p).value.pid == p
  {
    StepMoves(s, l);
    hide Step;
  }

  /** Under a process that stays critical, only a takeover of its lock changes it. */
  lemma Staying(s: State, l: Label, p: nat)
    requires Critical(s, p) && Critical(Step(s, l), p) && LockOf(s, p).Some? && LockOf(s, p).value.pid == p
    requires !UnsafeWrite(s, l)
    ensures LockOf(Step(s, l), p) == LockOf(s, p)
  {
    StepMoves(s, l);
    hide Step;
  }

  lemma EnterStep(s: State, l: Label)
    requires Enters(s, l)
    ensures Critical(Step(s, l), l.p) && forall q :: q != l.p ==> Critical(Step(s, l), q) == Critical(s, q)
  {
    StepMoves(s, l);
    hide Step;
  }

  /** A step keeps each root's lock with the process integrating there if and only if it overwrites no living one's. */
  lemma StepOwns(s: State, l: Label)
    requires LockNamesWorker(s) && OwnsLock(s)
    ensures OwnsLock(Step(s, l)) <==> !UnsafeWrite(s, l)
  {
    var t := Step(s, l);
    if UnsafeWrite(s, l) {
      var q := s.locks[s.procs[l.p].root].pid;
      assert Critical(t, q) && LockOf(t, q).value.pid != q;
    } else {
      hide Step, UnsafeWrite, LockNamesWorker;
      forall p | Critical(t, p)
        ensures LockOf(t, p).Some? && LockOf(t, p).value.pid == p
      {
        if Critical(s, p) { Staying(s, l, p); } else { Entering(s, l, p); }
      }
    }
  }

  lemma HeldIsCritical(s: State, root: nat)
    requires LockNamesWorker(s) && Held(s, root)
    ensures Critical(s, s.locks[root].pid)
  {
  }

  /** A step keeps at most one process integrating if and only if none enters while a lock anywhere names a living one. */
  lemma StepExcludes(s: State, l: Label)
    requires LockNamesWorker(s) && Exclusive(s)
    ensures Exclusive(Step(s, l)) <==> !Intrudes(s, l)
  {
    var t := Step(s, l);
    StepOwns(s, l);
    if Intrudes(s, l) {
      var root :| Held(s, root);
      HeldIsCritical(s, root);
      EnterStep(s, l);
      hide Step;
      assert Critical(t, l.p) && Critical(t, s.locks[root].pid);
    } else {
      hide Step, LockNamesWorker;
      forall p, q | Critical(t, p) && Critical(t, q)
        ensures p == q
      {
        if !Critical(s, p) { Entering(s, l, p); }
        if !Critical(s, q) { Entering(s, l, q); }
        assert forall r :: Critical(s, r) ==> Held(s, s.procs[r].root);
      }
    }
  }
}
