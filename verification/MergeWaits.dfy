/** How long a conflict keeps others out, and that no waiting process is ever shut out for good. */
module MergeWaits {
  import opened Logs
  import opened MergeLock
  import opened MergeRuns
  import opened Options

  /** The lock at a root outlived its process, and nobody of that root integrates or is about to. */
  ghost predicate Kept(s: State, root: nat, k: Lock) {
    && LockAt(s, root) == Some(k) && !Alive(s, k.pid) && k.pid in s.procs
    && forall p :: p in s.procs && s.procs[p].root == root ==> Dead(s.procs[p].phase) || s.procs[p].phase == Waiting
  }

  /** The session that met the conflict comes back for its lock. */
  predicate Returns(s: State, root: nat, k: Lock, l: Label) {
    l.Decide? && Is(s, l.p, Waiting) && s.procs[l.p].root == root && s.procs[l.p].session == k.session && k.session != ""
  }

  /** The step comes from outside the script or from a process with another root. */
  predicate Elsewhere(s: State, root: nat, l: Label) {
    l.Outside? || l.FetchElsewhere? || (Acts(s, l) && s.procs[l.p].root != root)
  }

  lemma StepKept(s: State, root: nat, k: Lock, l: Label)
    requires Kept(s, root, k) && !Returns(s, root, k, l) && s.clock < k.stamp + STALE_THRESHOLD
    ensures Kept(Step(s, l), root, k)
  {
    var t := Step(s, l);
    StepMoves(s, l);
    if Acts(s, l) && s.procs[l.p].root == root { OwnKept(s, root, k, l); }
    hide Step;
  }

  /** A process of that root can wait, be killed, or nothing. */
  lemma OwnKept(s: State, root: nat, k: Lock, l: Label)
    requires Kept(s, root, k) && !Returns(s, root, k, l) && s.clock < k.stamp + STALE_THRESHOLD
    requires Acts(s, l) && s.procs[l.p].root == root
    ensures var t := Step(s, l); t.locks == s.locks && t.repo == s.repo && (t.procs == s.procs || t == At(s, l.p, Killed))
  {
  }

  lemma StepLeavesMain(s: State, root: nat, k: Lock, l: Label)
    requires Kept(s, root, k) && !Returns(s, root, k, l) && s.clock < k.stamp + STALE_THRESHOLD && !Elsewhere(s, root, l)
    ensures Step(s, l).repo.local == s.repo.local && Step(s, l).repo.origin == s.repo.origin
  {
    if Acts(s, l) { OwnKept(s, root, k, l); }
  }

  lemma StepClock(s: State, l: Label)
    ensures s.clock <= Step(s, l).clock
  {
    hide Work, Onto, Continues, Fetched, Destination, Restored, Acceptable, Writing, LockAt;
  }

  ghost predicate NeverReturns(s: State, root: nat, k: Lock, ls: seq<Label>) {
    forall n {:trigger ls[..n]} :: 0 <= n < |ls| ==> !Returns(FoldAll(Step, s, ls[..n]), root, k, ls[n])
  }

  ghost predicate NothingElsewhere(s: State, root: nat, ls: seq<Label>) {
    forall n {:trigger ls[..n]} :: 0 <= n < |ls| ==> !Elsewhere(FoldAll(Step, s, ls[..n]), root, ls[n])
  }

  /** While the lock is younger than 30 minutes and its session stays away, nobody of that root integrates, and main and
      the origin change from elsewhere only. */
  lemma {:induction false} ConflictKeepsOthersOut(s: State, root: nat, k: Lock, ls: seq<Label>)
    requires Kept(s, root, k) && NeverReturns(s, root, k, ls)
    requires FoldAll(Step, s, ls).clock < k.stamp + STALE_THRESHOLD
    ensures var t := FoldAll(Step, s, ls);
            && Kept(t, root, k)
            && (NothingElsewhere(s, root, ls) ==> t.repo.local == s.repo.local && t.repo.origin == s.repo.origin)
  {
    if ls != [] {
      var init, l := ls[..|ls| - 1], ls[|ls| - 1];
      assert forall n {:trigger init[..n]} :: 0 <= n < |init| ==> ls[..n] == init[..n] && ls[n] == init[n];
      hide Step, Kept, Returns, Elsewhere;
      var m := FoldAll(Step, s, init);
      StepClock(m, l);
      ConflictKeepsOthersOut(s, root, k, init);
      StepKept(m, root, k, l);
      if NothingElsewhere(s, root, ls) {
        assert NothingElsewhere(s, root, init);
        StepLeavesMain(m, root, k, l);
      }
    }
  }

  /** The run respects the window: it ends before the lock is 30 minutes old, and the session stays away. */
  ghost predicate InWindow(s: State, root: nat, k: Lock, ls: seq<Label>) {
    NeverReturns(s, root, k, ls) && FoldAll(Step, s, ls).clock < k.stamp + STALE_THRESHOLD
  }

  ghost predicate NobodyIntegrates(s: State, root: nat) {
    forall p :: Critical(s, p) ==> s.procs[p].root != root
  }

  /** The lock outlived its process and nobody of its root integrates, but someone may have decided on an earlier lock. */
  ghost predicate Abandoned(s: State, root: nat, k: Lock) {
    && LockAt(s, root) == Some(k) && k.pid in s.procs && !Alive(s, k.pid) && NobodyIntegrates(s, root)
    && s.clock < k.stamp + STALE_THRESHOLD
  }

  /** Within its window an abandoned lock keeps everybody of its root out, in every run, if and only if no process there
      is between reading a lock and overwriting it. */
  lemma KeepsOutExactly(s: State, root: nat, k: Lock)
    requires Abandoned(s, root, k)
    ensures (forall ls :: InWindow(s, root, k, ls) ==> NobodyIntegrates(FoldAll(Step, s, ls), root)) <==>
            forall p :: Is(s, p, TakingOver) ==> s.procs[p].root != root
  {
    if forall p :: Is(s, p, TakingOver) ==> s.procs[p].root != root {
      assert Kept(s, root, k) by {
        forall p | p in s.procs && s.procs[p].root == root
          ensures Dead(s.procs[p].phase) || s.procs[p].phase == Waiting
        {
          assert !Is(s, p, TakingOver) && !Critical(s, p);
        }
      }
      forall ls | InWindow(s, root, k, ls)
        ensures NobodyIntegrates(FoldAll(Step, s, ls), root)
      {
        ConflictKeepsOthersOut(s, root, k, ls);
      }
    } else {
      var p :| Is(s, p, TakingOver) && s.procs[p].root == root;
      var ls := [Write(p)];
      FoldAllOne(Step, s, Write(p));
      assert NeverReturns(s, root, k, ls);
      var t := FoldAll(Step, s, ls);
      assert InWindow(s, root, k, ls) && Critical(t, p) && t.procs[p].root == root;
    }
  }

  /** The conflict exit itself: the lock stays exactly as it was. */
  lemma ConflictKeepsLock(s: State, p: nat)
    requires Is(s, p, Holding) && LockOf(s, p).Some? && LockOf(s, p).value.pid == p && Work(Fetched(s.repo), s.procs[p].ws) != []
    requires forall q :: q in s.procs && q != p && s.procs[q].root == s.procs[p].root ==> Dead(s.procs[q].phase) || s.procs[q].phase == Waiting
    ensures Kept(Step(s, Conflict(p)), s.procs[p].root, LockOf(s, p).value) && Is(Step(s, Conflict(p)), p, Exited(2))
  {
  }

  /** Another session that tries after d seconds gets in if and only if the lock is then 30 minutes old. */
  lemma WindowIsExact(s: State, root: nat, k: Lock, q: nat, d: nat)
    requires Kept(s, root, k) && Is(s, q, Waiting) && s.procs[q].root == root && (s.procs[q].session != k.session || k.session == "")
    ensures Critical(FoldAll(Step, s, [Tick(d), Decide(q), Write(q)]), q) <==> s.clock + d >= k.stamp + STALE_THRESHOLD
  {
    hide FoldAll;
    FoldAllThree(Step, s, Tick(d), Decide(q), Write(q));
    var s1 := Step(s, Tick(d));
    assert s1 == s.(clock := s.clock + d);
    assert Is(s1, q, Waiting) && Alive(s1, k.pid) == Alive(s, k.pid);
  }

  /**
   The whole decision table, for every state and every waiting process: it gets in by taking over if and only if there is
   a lock at its root, the lock's process is dead, and either the two sessions are the same, and known, or the lock is half
   an hour old. With no lock, and only then, it gets in by creating one.
   */
  lemma TakesOverExactly(s: State, p: nat)
    requires Is(s, p, Waiting)
    ensures Critical(Step(Step(s, Decide(p)), Write(p)), p) <==>
            && LockOf(s, p).Some? && !Alive(s, LockOf(s, p).value.pid)
            && ((LockOf(s, p).value.session == s.procs[p].session && s.procs[p].session != "")
                || s.clock >= LockOf(s, p).value.stamp + 1800)
    ensures Critical(Step(s, Create(p)), p) <==> LockOf(s, p) == None
  {
  }

  /** A lock that is taken over is as young as the takeover; one that is created is as old as the wait for it. */
  lemma LockTold(s: State, p: nat)
    requires p in s.procs && !Critical(s, p)
    ensures var t := Step(s, Write(p)); Critical(t, p) ==> LockOf(t, p) == Some(Lock(p, s.procs[p].session, s.clock))
    ensures var t := Step(s, Create(p)); Critical(t, p) ==> LockOf(t, p) == Some(Lock(p, s.procs[p].session, s.procs[p].stamp))
  {
  }

  /** The session that met a conflict comes back at once: a new launch of it gets in without a tick of the clock. */
  lemma ConflictReturns(s: State, p: nat, q: nat, ws: nat, issue: nat)
    requires Is(s, p, Holding) && q !in s.procs && s.procs[p].session != "" && Work(Fetched(s.repo), s.procs[p].ws) != []
    requires LockOf(s, p).Some? && LockOf(s, p).value.pid == p && LockOf(s, p).value.session == s.procs[p].session
    requires Acceptable(Work(Step(s, Conflict(p)).repo, ws), issue)
    ensures var rerun := [Conflict(p), Launch(q, ws, s.procs[p].root, s.procs[p].session, issue), Decide(q)];
            var t := Step(FoldAll(Step, s, rerun), Write(q));
            Is(t, p, Exited(2)) && Critical(t, q) && t.clock == s.clock
  {
    hide FoldAll, Work, Acceptable, Onto, Fetched;
    FoldAllThree(Step, s, Conflict(p), Launch(q, ws, s.procs[p].root, s.procs[p].session, issue), Decide(q));
  }

  /**
   A lock carries the time its process began to wait, not the time it was taken. One taken after half an hour of
   waiting is born stale: a conflict exit then keeps nobody out, not even for an instant.
   */
  lemma BornStale(s: State, p: nat, q: nat)
    requires p != q && Is(s, p, Waiting) && Is(s, q, Waiting) && s.procs[p].root == s.procs[q].root && LockOf(s, p) == None
    requires s.clock >= s.procs[p].stamp + STALE_THRESHOLD && Work(Fetched(s.repo), s.procs[p].ws) != []
    ensures var t := FoldAll(Step, s, [Create(p), Conflict(p), Decide(q)] + [Write(q)]);
            t.clock == s.clock && Is(t, p, Exited(2)) && Critical(t, q)
  {
    hide FoldAll;
    FoldAllPush(Step, s, [Create(p), Conflict(p), Decide(q)], Write(q));
    FoldAllThree(Step, s, Create(p), Conflict(p), Decide(q));
    var s1 := Step(s, Create(p));
    var s2 := Step(s1, Conflict(p));
    assert s2.locks == s1.locks && s2.clock == s.clock && s2.procs == s.procs[p := s.procs[p].(phase := Exited(2))];
    assert MayTake(s2, q);
  }

  /** Two launches and half an hour reach such a state. */
  lemma LongWaitReached(root: nat, a: string, b: string, issue: nat)
    ensures var s := Step(Run([Author(1, [issue]), Launch(1, 1, root, a, issue), Launch(2, 2, root, b, issue)]), Tick(STALE_THRESHOLD));
            && Is(s, 1, Waiting) && Is(s, 2, Waiting) && s.procs[1].root == s.procs[2].root && LockOf(s, 1) == None
            && s.clock >= s.procs[1].stamp + STALE_THRESHOLD && Work(Fetched(s.repo), s.procs[1].ws) != []
  {
    hide FoldAll;
    FoldAllThree(Step, Start, Author(1, [issue]), Launch(1, 1, root, a, issue), Launch(2, 2, root, b, issue));
    var s1 := Step(Start, Author(1, [issue]));
    assert Work(s1.repo, 1) == [Commit(issue, 0)] && Work(s1.repo, 2) == [];
  }

  /** Whatever the run so far, a waiting process can get in: at once, when the holder stops, or when the lock has aged. */
  lemma CanAlwaysGetIn(before: seq<Label>, p: nat) returns (ls: seq<Label>)
    requires Is(Run(before), p, Waiting)
    ensures |ls| <= 3 && Critical(FoldAll(Step, Run(before), ls), p)
    ensures var s := Run(before);
            LockOf(s, p).Some? && !Alive(s, LockOf(s, p).value.pid) ==>
            ls == [Tick(STALE_THRESHOLD + LockOf(s, p).value.stamp), Decide(p), Write(p)]
  {
    EveryRunNamesWorker(before);
    var s := Run(before);
    hide FoldAll, Run;
    if LockOf(s, p) == None {
      ls := [Create(p)];
      FoldAllOne(Step, s, Create(p));
    } else {
      var k := LockOf(s, p).value;
      if Alive(s, k.pid) {
        ls := [Abort(k.pid, 1)] + [Create(p)];
        FoldAllPush(Step, s, [Abort(k.pid, 1)], Create(p));
        FoldAllOne(Step, s, Abort(k.pid, 1));
        HolderStops(s, p, k);
      } else {
        ls := [Tick(STALE_THRESHOLD + k.stamp), Decide(p), Write(p)];
        FoldAllThree(Step, s, Tick(STALE_THRESHOLD + k.stamp), Decide(p), Write(p));
        var s1 := Step(s, Tick(STALE_THRESHOLD + k.stamp));
        assert Is(s1, p, Waiting) && !Alive(s1, k.pid) && MayTake(s1, p);
      }
    }
  }

  lemma HolderStops(s: State, p: nat, k: Lock)
    requires LockNamesWorker(s) && Is(s, p, Waiting) && LockOf(s, p) == Some(k) && Alive(s, k.pid)
    ensures var t := Step(s, Abort(k.pid, 1)); Is(t, p, Waiting) && LockOf(t, p) == None
  {
  }
}
