/** Who may integrate: over every run, exactly when at most one process does, at each root and in all. */
module MergeRuns {
  import opened Logs
  import opened MergeLock
  import opened Options
  import opened Runs

  // --- At most one process integrates ------------------------------------------------------

  lemma EveryRunNamesWorker(ls: seq<Label>)
    ensures LockNamesWorker(Run(ls))
  {
    assert LockNamesWorker(Start);
    hide Step, LockNamesWorker;
    forall s, l | LockNamesWorker(s)
      ensures LockNamesWorker(Step(s, l))
    {
      StepNamesWorker(s, l);
    }
    Kept(Step, LockNamesWorker, Start, ls);
  }

  /** At most one process integrates throughout a run if and only if none enters while a lock at any root names a living one. */
  lemma ExclusiveRuns(ls: seq<Label>)
    ensures GoodThroughout(Step, Exclusive, Start, ls) <==> NoBadStep(Step, Intrudes, Start, ls)
  {
    assert LockNamesWorker(Start) && Exclusive(Start);
    hide GoodThroughout, NoBadStep, Step, Exclusive, Intrudes, LockNamesWorker;
    forall s, l | LockNamesWorker(s)
      ensures LockNamesWorker(Step(s, l)) && (Exclusive(s) ==> (Exclusive(Step(s, l)) <==> !Intrudes(s, l)))
    {
      StepNamesWorker(s, l);
      if Exclusive(s) { StepExcludes(s, l); }
    }
    GoodRuns(Step, LockNamesWorker, Exclusive, Intrudes, Start, ls);
  }

  /** At each root at most one process integrates throughout a run if and only if no takeover overwrites a living one's lock. */
  lemma OwnedRuns(ls: seq<Label>)
    ensures GoodThroughout(Step, OwnsLock, Start, ls) <==> NoBadStep(Step, UnsafeWrite, Start, ls)
  {
    assert LockNamesWorker(Start) && OwnsLock(Start);
    hide GoodThroughout, NoBadStep, Step, OwnsLock, UnsafeWrite, LockNamesWorker;
    forall s, l | LockNamesWorker(s)
      ensures LockNamesWorker(Step(s, l)) && (OwnsLock(s) ==> (OwnsLock(Step(s, l)) <==> !UnsafeWrite(s, l)))
    {
      StepNamesWorker(s, l);
      if OwnsLock(s) { StepOwns(s, l); }
    }
    GoodRuns(Step, LockNamesWorker, OwnsLock, UnsafeWrite, Start, ls);
  }

  /** Two agents in workspaces of their own, as the script is launched by default, both integrate: each finds no lock. */
  lemma TwoRoots(s: State, p: nat, q: nat)
    requires Is(s, p, Waiting) && Is(s, q, Waiting) && s.procs[p].root != s.procs[q].root
    requires LockOf(s, p) == None && LockOf(s, q) == None
    ensures var t := Step(Step(s, Create(p)), Create(q)); Critical(t, p) && Critical(t, q)
  {
  }

  lemma TwoRootsReached(a: string, b: string, i: nat, j: nat)
    ensures var s := Step(Run([Launch(1, 1, 1, a, i)]), Launch(2, 2, 2, b, j));
            && Is(s, 1, Waiting) && Is(s, 2, Waiting) && s.procs[1].root != s.procs[2].root
            && LockOf(s, 1) == None && LockOf(s, 2) == None
  {
    FoldAllOne(Step, Start, Launch(1, 1, 1, a, i));
  }

  // --- One root for all ----------------------------------------------------------------------

  /** Every process of the run is launched with this root. */
  ghost predicate AtRoot(ls: seq<Label>, root: nat) {
    forall i :: 0 <= i < |ls| ==> ls[i].Launch? ==> ls[i].root == root
  }

  lemma StepRoot(s: State, l: Label, root: nat)
    requires (forall p :: p in s.procs ==> s.procs[p].root == root) && (l.Launch? ==> l.root == root)
    ensures forall p :: p in Step(s, l).procs ==> Step(s, l).procs[p].root == root
  {
    if l.Launch? {
      hide Acceptable, Work;
    } else {
      StepMoves(s, l);
      hide Step;
    }
  }

  lemma {:induction false} RunRoot(ls: seq<Label>, root: nat)
    requires AtRoot(ls, root)
    ensures forall p :: p in Run(ls).procs ==> Run(ls).procs[p].root == root
  {
    if ls != [] {
      hide Step;
      RunRoot(ls[..|ls| - 1], root);
      StepRoot(Run(ls[..|ls| - 1]), ls[|ls| - 1], root);
    }
  }

  /** With one root, entering beside a living holder is overwriting its lock. */
  lemma IntrudesAtRoot(s: State, l: Label, root: nat)
    requires LockNamesWorker(s) && forall p :: p in s.procs ==> s.procs[p].root == root
    ensures Intrudes(s, l) <==> UnsafeWrite(s, l)
  {
  }

  /** When all processes share one root, at most one integrates throughout if and only if no takeover overwrites the
      lock of a living process. */
  lemma SharedRootRuns(ls: seq<Label>, root: nat)
    requires AtRoot(ls, root)
    ensures GoodThroughout(Step, Exclusive, Start, ls) <==> NoBadStep(Step, UnsafeWrite, Start, ls)
  {
    ExclusiveRuns(ls);
    forall n {:trigger ls[..n]} | 0 <= n < |ls|
      ensures Intrudes(Run(ls[..n]), ls[n]) <==> UnsafeWrite(Run(ls[..n]), ls[n])
    {
      hide Step, Intrudes, UnsafeWrite, LockNamesWorker;
      assert AtRoot(ls[..n], root);
      RunRoot(ls[..n], root);
      EveryRunNamesWorker(ls[..n]);
      IntrudesAtRoot(Run(ls[..n]), ls[n], root);
    }
  }

  /** Every takeover overwrites the lock in the instant it has read it. */
  ghost predicate AtomicTakeovers(ls: seq<Label>) {
    forall n {:trigger ls[..n]} :: 0 <= n < |ls| && ls[n].Write? && Is(Run(ls[..n]), ls[n].p, TakingOver) ==>
      n > 0 && ls[n - 1] == Decide(ls[n].p) && Is(Run(ls[..n - 1]), ls[n].p, Waiting)
  }

  lemma DecideThenWrite(s: State, p: nat)
    requires Is(s, p, Waiting)
    ensures !UnsafeWrite(Step(s, Decide(p)), Write(p))
  {
  }

  /** If moreover the decision were one step, as the decision table reads, at most one process would integrate in every run. */
  lemma AtomicTakeoversExclude(ls: seq<Label>, root: nat)
    requires AtomicTakeovers(ls) && AtRoot(ls, root)
    ensures GoodThroughout(Step, Exclusive, Start, ls)
  {
    forall n {:trigger ls[..n]} | 0 <= n < |ls|
      ensures !UnsafeWrite(Run(ls[..n]), ls[n])
    {
      if UnsafeWrite(Run(ls[..n]), ls[n]) {
        hide Step, UnsafeWrite;
        assert ls[..n - 1] + [ls[n - 1]] == ls[..n];
        FoldAllPush(Step, Start, ls[..n - 1], ls[n - 1]);
        DecideThenWrite(Run(ls[..n - 1]), ls[n].p);
      }
    }
    SharedRootRuns(ls, root);
  }

  /** The failing family at one root: two processes that wait on a stale lock both decide to take it before either writes. */
  lemma TwoTakeOver(s: State, p: nat, q: nat)
    requires p != q && Is(s, p, Waiting) && Is(s, q, Waiting) && MayTake(s, p) && MayTake(s, q)
    ensures var t := FoldAll(Step, s, [Decide(p), Decide(q), Write(p)] + [Write(q)]); Critical(t, p) && Critical(t, q)
  {
    hide FoldAll;
    FoldAllPush(Step, s, [Decide(p), Decide(q), Write(p)], Write(q));
    FoldAllThree(Step, s, Decide(p), Decide(q), Write(p));
  }

  /** Such a state is reached by two launches once a killed process's lock has aged. */
  lemma StaleLockReached(root: nat, a: string, b: string, c: string)
    ensures var s := Run([Launch(1, 1, root, a, 1), Create(1), Kill(1)] + [Tick(STALE_THRESHOLD), Launch(2, 2, root, b, 2), Launch(3, 3, root, c, 3)]);
            Is(s, 2, Waiting) && Is(s, 3, Waiting) && MayTake(s, 2) && MayTake(s, 3) && s.procs[2].root == s.procs[3].root
  {
    hide FoldAll;
    FoldAllConcat(Step, Start, [Launch(1, 1, root, a, 1), Create(1), Kill(1)],
                  [Tick(STALE_THRESHOLD), Launch(2, 2, root, b, 2), Launch(3, 3, root, c, 3)]);
    KilledHolder(root, a);
    var s := Run([Launch(1, 1, root, a, 1), Create(1), Kill(1)]);
    FoldAllThree(Step, s, Tick(STALE_THRESHOLD), Launch(2, 2, root, b, 2), Launch(3, 3, root, c, 3));
  }

  lemma KilledHolder(root: nat, a: string)
    ensures Run([Launch(1, 1, root, a, 1), Create(1), Kill(1)])
         == Start.(locks := map[root := Lock(1, a, 0)], procs := map[1 := Proc(1, root, a, 1, 0, Killed)])
  {
    hide FoldAll;
    FoldAllThree(Step, Start, Launch(1, 1, root, a, 1), Create(1), Kill(1));
  }
}
