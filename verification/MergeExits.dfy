/** What exit codes mean, and the runs in which integrating at once goes wrong. */
module MergeExits {
  import opened Logs
  import opened MergeLands
  import opened MergeLock
  import opened MergeViews
  import opened Options

  // --- Exit codes -----------------------------------------------------------------------------

  lemma ExitZero(s: State, l: Label, p: nat)
    requires Alive(s, p) && Is(Step(s, l), p, Exited(0))
    ensures || (l == Finish(p) && s.procs[p].phase.Pushed?)
            || (l == Rebase(p) && Is(s, p, Holding) && Work(Fetched(s.repo), s.procs[p].ws) == [])
    ensures Step(s, l).repo == if l == Finish(p) then s.repo else Fetched(s.repo)
  {
    hide Fetched, Work, Onto, Continues, Writing, Destination, Acceptable, Restored, LockAt, Landed, Head;
  }

  /** From every state, whoever else integrates: exit 0 follows the process's own push, or a fetch that left nothing of its
      workspace above main, and then main is published if and only if it was before. */
  lemma SuccessPublishes(s: State, l: Label, p: nat)
    requires Alive(s, p) && Is(Step(s, l), p, Exited(0))
    ensures var r := Step(s, l).repo;
            || (l == Finish(p) && s.procs[p].phase.Pushed? && r == s.repo)
            || (l == Rebase(p) && Head(r, s.procs[p].ws) <= r.local && (r.local <= r.origin <==> s.repo.local <= s.repo.origin))
  {
    ExitZero(s, l, p);
    if l == Rebase(p) {
      var ws, f := s.procs[p].ws, Fetched(s.repo);
      var k := AboveCuts(Head(f, ws), f.local);
      assert Head(f, ws)[..k] == Head(f, ws);
    }
    hide Step, Work;
  }

  /** Every exit code, by what ends the process: its own push or an empty workspace, a conflict, a failure or the status of a
      failed gate, or a signal. */
  lemma ExitCodes(s: State, l: Label, p: nat)
    requires Alive(s, p) && p in Step(s, l).procs && Step(s, l).procs[p].phase.Exited?
    ensures OfProcess(l) && l.p == p
    ensures Step(s, l).procs[p].phase.code ==
            match l
            case Finish(_) => 0
            case Rebase(_) => if Work(Fetched(s.repo), s.procs[p].ws) == [] then 0 else 1
            case Conflict(_) => 2
            case Abort(_, status) => if s.procs[p].phase.Rebased? && status != 0 then status else 1
            case Signal(_, term) => if term then 143 else 130
            case _ => 1
  {
    hide Fetched, Work, Onto, Continues, Writing, Destination, Acceptable, Restored, LockAt, Landed, Head;
  }

  /** A launch waits if and only if its workspace has no commit above main, or exactly one that names the issue; otherwise it
      exits 1 at once. */
  lemma LaunchExactly(s: State, p: nat, ws: nat, root: nat, session: string, issue: nat)
    requires p !in s.procs
    ensures var t, w := Step(s, Launch(p, ws, root, session, issue)), Work(s.repo, ws);
            && p in t.procs && t.procs[p].(phase := Waiting) == Proc(ws, root, session, issue, s.clock, Waiting)
            && t.procs[p].phase == if |w| == 0 || (|w| == 1 && w[0].issue == issue) then Waiting else Exited(1)
  {
    hide Work;
  }

  lemma LeaveReleases(s: State, r: Repo, p: nat, code: nat)
    requires p in s.procs && LockOf(s, p).Some? && LockOf(s, p).value.pid == p && LockOf(s, p).value.session == s.procs[p].session
    ensures Leave(s.(repo := r), p, code).locks == s.locks - {s.procs[p].root}
  {
  }

  /** An exit leaves the locks as they are if and only if it reports conflicts; every other one releases its own, that of a
      gate which exits 2 too. A kill releases nothing. */
  lemma ExitHoldsLock(s: State, l: Label, p: nat)
    requires LockNamesWorker(s) && OwnsLock(s) && Critical(s, p) && p in Step(s, l).procs && Dead(Step(s, l).procs[p].phase)
    ensures Step(s, l).locks == if l == Conflict(p) || l == Kill(p) then s.locks else s.locks - {s.procs[p].root}
  {
    assert s.procs[p].root in s.locks && s.procs[s.locks[s.procs[p].root].pid].session == s.locks[s.procs[p].root].session;
    hide LockNamesWorker, OwnsLock, Fetched, Work, Onto, Continues, Writing, Destination, Acceptable, Restored, Landed, Head, Leave, Moves;
    assert OfProcess(l) && l.p == p by { Whose(s, l, p); }
    forall r, c ensures Leave(s.(repo := r), p, c).locks == s.locks - {s.procs[p].root} { LeaveReleases(s, r, p, c); }
    assert s.(repo := s.repo) == s;
  }

  /** And only its own: a lock of another process, or of the same number under another session, stays. */
  lemma ReleasesOnlyItsOwn(s: State, l: Label, p: nat)
    requires Alive(s, p) && p in Step(s, l).procs && Dead(Step(s, l).procs[p].phase)
    requires LockOf(s, p).Some? && (LockOf(s, p).value.pid != p || LockOf(s, p).value.session != s.procs[p].session)
    ensures Step(s, l).locks == s.locks
  {
    hide Fetched, Work, Onto, Continues, Writing, Destination, Acceptable, Restored, Landed, Head, MayTake;
    Whose(s, l, p);
  }

  lemma Whose(s: State, l: Label, p: nat)
    requires Alive(s, p) && p in Step(s, l).procs && Dead(Step(s, l).procs[p].phase)
    ensures OfProcess(l) && l.p == p
  {
    StepMoves(s, l);
    hide Step;
  }

  // --- Success without publishing ---------------------------------------------------------------

  lemma PushFails(s: State, p: nat)
    requires p in s.procs && s.procs[p].phase.Moved? && LockOf(s, p).Some? && LockOf(s, p).value.pid == p
    requires LockOf(s, p).value.session == s.procs[p].session
    ensures Step(s, Abort(p, 1)) == At(s.(locks := s.locks - {s.procs[p].root}), p, Exited(1))
  {
  }

  lemma FailedPush(s: State, p: nat, c: Commit)
    requires Is(s, p, Holding) && LockOf(s, p).Some? && LockOf(s, p).value.pid == p && LockOf(s, p).value.session == s.procs[p].session
    requires s.repo.origin <= s.repo.local && OnTop(s.repo, s.procs[p].ws, c) && !Carries(s.repo.local, c.change)
    ensures var t, main := FoldAll(Step, s, [Rebase(p), Move(p), Abort(p, 1)]), s.repo.local + [c];
            && t.repo == s.repo.(local := main, work := s.repo.work[s.procs[p].ws := Line(main, [])])
            && t.locks == s.locks - {s.procs[p].root} && t.procs.Keys == s.procs.Keys && Is(t, p, Exited(1))
  {
    hide FoldAll, Step;
    FoldAllThree(Step, s, Rebase(p), Move(p), Abort(p, 1));
    RebaseOnTop(s, p, c);
    var s1 := Step(s, Rebase(p));
    MoveOnTop(s1, p, c);
    PushFails(Step(s1, Move(p)), p);
  }

  lemma NothingToPush(s: State, q: nat, ws: nat, root: nat, session: string, issue: nat)
    requires q !in s.procs && root !in s.locks && Head(s.repo, ws) <= s.repo.local && s.repo.origin <= s.repo.local
    ensures var u := FoldAll(Step, s, [Launch(q, ws, root, session, issue), Create(q), Rebase(q)]);
            Is(u, q, Exited(0)) && u.repo == s.repo
  {
    hide FoldAll;
    NoneAbove(s.repo, ws);
    FoldAllThree(Step, s, Launch(q, ws, root, session, issue), Create(q), Rebase(q));
    assert Fetched(s.repo) == s.repo;
    hide Work, Onto, Fetched;
  }

  /** The failing family for exit 0: the push fails, and running the script again reports success without pushing. */
  lemma RerunHidesFailedPush(s: State, p: nat, q: nat, c: Commit, session: string)
    requires LockNamesWorker(s) && OwnsLock(s) && Sound(s) && Is(s, p, Holding) && q !in s.procs && OnTop(s.repo, s.procs[p].ws, c)
    requires s.repo.origin <= s.repo.local
    ensures var t := FoldAll(Step, s, [Rebase(p), Move(p), Abort(p, 1)]);
            var u := FoldAll(Step, t, [Launch(q, s.procs[p].ws, s.procs[p].root, session, s.procs[p].issue), Create(q), Rebase(q)]);
            && Is(t, p, Exited(1)) && Is(u, q, Exited(0))
            && u.repo.local == s.repo.local + [c] && u.repo.origin == s.repo.origin
  {
    hide FoldAll, Step;
    assert Critical(s, p);
    TopIsNew(s.repo, s.repo.origin, s.procs[p].ws, c);
    FailedPush(s, p, c);
    var t := FoldAll(Step, s, [Rebase(p), Move(p), Abort(p, 1)]);
    assert Head(t.repo, s.procs[p].ws) == t.repo.local + [];
    NothingToPush(t, q, s.procs[p].ws, s.procs[p].root, session, s.procs[p].issue);
  }

  /** A workspace is put on main, gets a commit, and its process takes the lock. */
  function Joining(p: nat, ws: nat, root: nat, session: string, issue: nat): seq<Label> {
    [Checkout(ws), Author(ws, [issue]), Launch(p, ws, root, session, issue)] + [Create(p)]
  }

  lemma LaunchOnTop(s: State, p: nat, ws: nat, root: nat, session: string, c: Commit)
    requires p !in s.procs && OnTop(s.repo, ws, c)
    ensures Step(s, Launch(p, ws, root, session, c.issue)) == s.(procs := s.procs[p := Proc(ws, root, session, c.issue, s.clock, Waiting)])
  {
    TopContinues(s.repo, ws, c);
    hide Work, LineAt;
  }

  lemma CreateHolds(s: State, p: nat)
    requires Is(s, p, Waiting) && LockOf(s, p) == None
    ensures Step(s, Create(p)) == At(Locking(s, p, s.procs[p].stamp), p, Holding)
  {
  }

  lemma ReadyRepo(r: Repo, ws: nat, issue: nat)
    ensures Writing(r.(work := r.work[ws := Line(r.local, [])]), ws, [issue])
         == r.(work := r.work[ws := Line(r.local, [Commit(issue, r.nextChange)])], nextChange := r.nextChange + 1)
  {
    assert Authored([issue], r.nextChange) == [Commit(issue, r.nextChange)];
  }

  lemma Joins(s: State, p: nat, ws: nat, root: nat, session: string, issue: nat)
    requires p !in s.procs && root !in s.locks
    ensures var c := Commit(issue, s.repo.nextChange);
            FoldAll(Step, s, Joining(p, ws, root, session, issue)) ==
            s.(repo := s.repo.(work := s.repo.work[ws := Line(s.repo.local, [c])], nextChange := s.repo.nextChange + 1),
               procs := s.procs[p := Proc(ws, root, session, issue, s.clock, Holding)],
               locks := s.locks[root := Lock(p, session, s.clock)])
  {
    var c, launch := Commit(issue, s.repo.nextChange), Launch(p, ws, root, session, issue);
    FoldAllPush(Step, s, [Checkout(ws), Author(ws, [issue]), launch], Create(p));
    FoldAllThree(Step, s, Checkout(ws), Author(ws, [issue]), launch);
    var s1 := Step(Step(s, Checkout(ws)), Author(ws, [issue]));
    ReadyRepo(s.repo, ws, issue);
    hide Writing;
    assert s1 == s.(repo := s.repo.(work := s.repo.work[ws := Line(s.repo.local, [c])], nextChange := s.repo.nextChange + 1));
    hide FoldAll, Step;
    LaunchOnTop(s1, p, ws, root, session, c);
    CreateHolds(Step(s1, launch), p);
  }

  /** That is all these families start from. */
  lemma HoldingReached(ws: nat, root: nat, session: string, issue: nat)
    ensures var s := Run(Joining(1, ws, root, session, issue));
            && LockNamesWorker(s) && OwnsLock(s) && Sound(s) && Is(s, 1, Holding) && s.procs.Keys == {1} && s.procs[1].ws == ws
            && OnTop(s.repo, ws, Commit(issue, 0)) && s.repo.origin == s.repo.local
  {
    EveryRunSound(Joining(1, ws, root, session, issue));
    hide FoldAll, Sound, Joining;
    Joins(Start, 1, ws, root, session, issue);
  }

  // --- Integrating at once ------------------------------------------------------------------------

  /** A process with one commit has taken its lock, and everything else is published. */
  predicate Holds(s: State, p: nat, c: Commit) {
    Is(s, p, Holding) && OnTop(s.repo, s.procs[p].ws, c) && s.repo.origin == s.repo.local && !Carries(s.repo.local, c.change)
  }

  predicate BothHold(s: State, p: nat, q: nat, c: Commit, d: Commit) {
    p != q && Holds(s, p, c) && Holds(s, q, d) && s.procs[p].ws != s.procs[q].ws
  }

  /** One more process joins those that hold already. */
  lemma JoinsBeside(s: State, p: nat, ws: nat, root: nat, session: string, issue: nat, q: nat, d: Commit)
    requires Sound(s) && p !in s.procs && root !in s.locks && s.repo.origin == s.repo.local
    ensures var t := FoldAll(Step, s, Joining(p, ws, root, session, issue));
            && Holds(t, p, Commit(issue, s.repo.nextChange)) && t.procs[p].ws == ws && t.locks.Keys == s.locks.Keys + {root}
            && t.procs.Keys == s.procs.Keys + {p} && t.repo.nextChange == s.repo.nextChange + 1
            && (Holds(s, q, d) && s.procs[q].ws != ws ==> Holds(t, q, d) && t.procs[q].ws == s.procs[q].ws)
  {
    Joins(s, p, ws, root, session, issue);
    assert Below(s.repo.local, s.repo.nextChange);
    hide FoldAll, Joining, Sound;
  }

  /** Agents in workspaces of their own, as by default, get there, two of them or three. */
  lemma BothHoldReached(a: string, b: string, i: nat, j: nat)
    ensures var s := Run(Joining(1, 1, 1, a, i) + Joining(2, 2, 2, b, j));
            && BothHold(s, 1, 2, Commit(i, 0), Commit(j, 1)) && s.procs[1].ws == 1 && s.procs[2].ws == 2
            && s.procs.Keys == {1, 2} && s.locks.Keys == {1, 2} && s.repo.nextChange == 2
  {
    var one := Joining(1, 1, 1, a, i);
    FoldAllConcat(Step, Start, one, Joining(2, 2, 2, b, j));
    StartSound();
    EveryRunSound(one);
    hide FoldAll, Joining, Sound, Holds;
    JoinsBeside(Start, 1, 1, 1, a, i, 1, Commit(i, 0));
    HeldPublished(Run(one), 1, Commit(i, 0));
    JoinsBeside(Run(one), 2, 2, 2, b, j, 1, Commit(i, 0));
  }

  lemma HeldPublished(s: State, p: nat, c: Commit)
    requires Holds(s, p, c)
    ensures s.repo.origin == s.repo.local && p in s.procs
  {
  }

  lemma ThreeHoldReached(a: string, b: string, c: string, i: nat, j: nat, k: nat)
    ensures var s := Run(Joining(1, 1, 1, a, i) + Joining(2, 2, 2, b, j) + Joining(3, 3, 3, c, k));
            && BothHold(s, 1, 2, Commit(i, 0), Commit(j, 1)) && BothHold(s, 1, 3, Commit(i, 0), Commit(k, 2))
            && BothHold(s, 2, 3, Commit(j, 1), Commit(k, 2))
  {
    var two := Joining(1, 1, 1, a, i) + Joining(2, 2, 2, b, j);
    FoldAllConcat(Step, Start, two, Joining(3, 3, 3, c, k));
    EveryRunSound(two);
    BothHoldReached(a, b, i, j);
    hide FoldAll, Joining, Sound, Holds;
    HeldPublished(Run(two), 1, Commit(i, 0));
    JoinsBeside(Run(two), 3, 3, 3, c, k, 1, Commit(i, 0));
    JoinsBeside(Run(two), 3, 3, 3, c, k, 2, Commit(j, 1));
  }

  lemma BothRebased(s: State, p: nat, q: nat, c: Commit, d: Commit)
    requires BothHold(s, p, q, c, d)
    ensures Step(Step(s, Rebase(p)), Rebase(q)) == At(At(s, p, Rebased(s.repo, s.repo.local)), q, Rebased(s.repo, s.repo.local))
  {
    hide Step;
    RebaseOnTop(s, p, c);
    RebaseOnTop(At(s, p, Rebased(s.repo, s.repo.local)), q, d);
  }

  lemma PushStep(s: State, p: nat)
    requires p in s.procs && s.procs[p].phase.Moved? && s.repo.origin <= s.repo.local
    ensures Step(s, Push(p)) == At(s.(repo := s.repo.(origin := s.repo.local)), p, Pushed(s.procs[p].phase.before, s.procs[p].phase.main))
  {
  }

  lemma FinishStep(s: State, p: nat)
    requires p in s.procs && s.procs[p].phase.Pushed?
    ensures var t := Step(s, Finish(p)); t.repo == s.repo && t.procs == At(s, p, Exited(0)).procs
  {
  }

  /** One lands, pushes and reports success; the other's gate then fails, and its restore takes the published commit off
      main and back into the workspace it came from. */
  lemma FailedGateTakesBack(s: State, p: nat, q: nat, c: Commit, d: Commit, status: nat)
    requires BothHold(s, p, q, c, d)
    ensures var t := FoldAll(Step, Step(Step(s, Rebase(p)), Rebase(q)), [Move(q), Push(q), Finish(q)]);
            var u := Step(t, Abort(p, status));
            && Is(t, q, Exited(0)) && t.repo.local == t.repo.origin == s.repo.local + [d]
            && Is(u, q, Exited(0)) && u.repo == s.repo.(origin := s.repo.local + [d])
  {
    hide FoldAll, Step;
    BothRebased(s, p, q, c, d);
    var s1 := Step(Step(s, Rebase(p)), Rebase(q));
    FoldAllThree(Step, s1, Move(q), Push(q), Finish(q));
    MoveOnTop(s1, q, d);
    var s2 := Step(s1, Move(q));
    PushStep(s2, q);
    FinishStep(Step(s2, Push(q)), q);
    RestoreStep(Step(Step(s2, Push(q)), Finish(q)), Abort(p, status));
  }

  /** The other's gate fails between one's bookmark move and its push: the push finds nothing to publish, and success is
      reported with the repository as it was before. */
  lemma SuccessWithoutLanding(s: State, p: nat, q: nat, c: Commit, d: Commit, status: nat)
    requires BothHold(s, p, q, c, d)
    ensures var t := FoldAll(Step, Step(Step(s, Rebase(p)), Rebase(q)), [Move(q), Abort(p, status), Push(q)]);
            var u := Step(t, Finish(q));
            Is(u, q, Exited(0)) && u.repo == s.repo
  {
    hide FoldAll, Step;
    BothRebased(s, p, q, c, d);
    var s1 := Step(Step(s, Rebase(p)), Rebase(q));
    FoldAllThree(Step, s1, Move(q), Abort(p, status), Push(q));
    MoveOnTop(s1, q, d);
    var s2 := Step(s1, Move(q));
    RestoreStep(s2, Abort(p, status));
    var s3 := Step(s2, Abort(p, status));
    PushStep(s3, q);
    FinishStep(Step(s3, Push(q)), q);
  }

  /** A third process rebases onto what one has landed, the other's restore takes that back, and with it the rebase: the
      third lands on an older main than its gate ran on. */
  lemma LandsBelowItsGate(s: State, p: nat, q: nat, r: nat, c: Commit, d: Commit, e: Commit, status: nat)
    requires BothHold(s, p, q, c, d) && BothHold(s, p, r, c, e) && BothHold(s, q, r, d, e) && d.change != e.change
    ensures var t := FoldAll(Step, Step(Step(s, Rebase(p)), Rebase(q)), [Move(q), Rebase(r), Abort(p, status)]);
            var u := Step(t, Move(r));
            && r in t.procs && t.procs[r].phase.Rebased? && t.procs[r].phase.base == s.repo.local + [d]
            && u.repo.local == s.repo.local + [e]
  {
    BothRebased(s, p, q, c, d);
    var s1 := Step(Step(s, Rebase(p)), Rebase(q));
    FoldAllThree(Step, s1, Move(q), Rebase(r), Abort(p, status));
    MoveOnTop(s1, q, d);
    var s2 := Step(s1, Move(q));
    RebaseBehind(s2, r, s.repo.local, d, e);
    var s3 := Step(s2, Rebase(r));
    assert s3.procs[p] == s1.procs[p];
    RestoreStep(s3, Abort(p, status));
    hide FoldAll, Step;
    var t := Step(s3, Abort(p, status));
    assert OnTop(t.repo, s.procs[r].ws, e);
    MoveOnTop(t, r, e);
  }

  lemma RebaseBehind(s: State, p: nat, m: seq<Commit>, d: Commit, e: Commit)
    requires Is(s, p, Holding) && LineAt(s.repo, s.procs[p].ws) == Line(m, [e]) && s.repo.local == m + [d] && d != e
    requires s.repo.origin <= s.repo.local
    ensures var t := Step(s, Rebase(p)); t.procs == s.procs[p := s.procs[p].(phase := Rebased(s.repo, m + [d]))]
  {
    AboveShared(m, [e], [d]);
    assert Fetched(s.repo) == s.repo;
    hide Onto, Fetched;
  }
}
