/**
 What becomes of main while any number of processes integrate at once: what lands, on what, what a restore takes back,
 and what the exit codes mean.
 */
module MergeLands {
  import opened Logs
  import opened MergeLock
  import opened MergeViews
  import opened Options
  import opened Runs

  // --- What lands ------------------------------------------------------------------------------

  /** A bookmark move puts exactly one commit on top of main, or of main after another fetch. */
  predicate Lands(s: State, p: nat, c: Commit, r: Repo) {
    && Advances(s, p) && Work(MovedFrom(s, p), s.procs[p].ws) == [c]
    && (MovedFrom(s, p).local == if Continues(s.repo, s.procs[p].ws) then s.repo.local else Fetched(s.repo).local)
    && r.local == MovedFrom(s, p).local + [c] && r.origin == s.repo.origin && r.nextChange == s.repo.nextChange
    && r.work == s.repo.work[s.procs[p].ws := Line(r.local, [])]
  }

  lemma OntoParts(r: Repo, ws: nat, n: Line)
    ensures var t := Onto(r, ws);
            t.local == r.local && t.origin == r.origin && t.nextChange == r.nextChange && t.work[ws := n] == r.work[ws := n]
  {
    hide Work, Destination, Carries;
  }

  lemma MoveLands(s: State, p: nat) returns (c: Commit)
    requires Advances(s, p)
    ensures Lands(s, p, c, Landed(MovedFrom(s, p), s.procs[p].ws))
  {
    var r, ws := MovedFrom(s, p), s.procs[p].ws;
    MovedFromContinues(s, p);
    OntoParts(Fetched(s.repo), ws, Line(Head(r, ws), []));
    FetchedParts(s.repo);
    c := OneAbove(r, ws);
    hide Work, Onto, Fetched, Head, Continues;
  }

  /**
   For every step from every state, whoever else integrates, pushes or writes: main changes in three ways only. Exactly
   one commit lands, a fetch brings main forward to the origin, or a restore puts back the main that was captured.
   */
  lemma OneCommitLands(s: State, l: Label)
    requires Step(s, l).repo.local != s.repo.local
    ensures var r := Step(s, l).repo;
            || (l.Move? && exists c :: Lands(s, l.p, c, r))
            || (Fetches(l) && s.repo.local <= r.local == s.repo.origin)
            || (Restores(s, l) && r.local == s.procs[l.p].phase.before.local)
  {
    RepoStep(s, l);
    if Rebases(l) && l.p in s.procs { OntoParts(Fetched(s.repo), s.procs[l.p].ws, Line([], [])); }
    if l.Move? && Advances(s, l.p) {
      var c := MoveLands(s, l.p);
    }
    hide Step, Onto, Lands, Advances, MovedFrom, Continues, Work, Head;
  }

  /** A bookmark move lands on the main its gate ran on if and only if main, fetched once more where the workspace does not
      continue it, is still that main. */
  lemma GatedExactly(s: State, p: nat) returns (c: Commit)
    requires p in s.procs && s.procs[p].phase.Rebased? && Step(s, Move(p)).procs[p].phase.Moved?
    ensures Lands(s, p, c, Step(s, Move(p)).repo)
    ensures Step(s, Move(p)).repo.local == s.procs[p].phase.base + [c] <==>
            s.procs[p].phase.base == if Continues(s.repo, s.procs[p].ws) then s.repo.local else Fetched(s.repo).local
  {
    var t := Step(s, Move(p));
    assert Advances(s, p) && t.repo == Landed(MovedFrom(s, p), s.procs[p].ws) by {
      hide Work, Onto, Fetched, Continues, Landed, Head, LockAt;
    }
    c := MoveLands(s, p);
    hide Step;
    assert t.repo.local[..|t.repo.local| - 1] == MovedFrom(s, p).local;
    if t.repo.local == s.procs[p].phase.base + [c] { assert t.repo.local[..|t.repo.local| - 1] == s.procs[p].phase.base; }
  }

  /** The workspace has one commit, on top of main. */
  predicate OnTop(r: Repo, ws: nat, c: Commit) {
    LineAt(r, ws) == Line(r.local, [c])
  }

  lemma TopContinues(r: Repo, ws: nat, c: Commit)
    requires OnTop(r, ws, c)
    ensures Head(r, ws) == r.local + [c] && Work(r, ws) == [c] && Continues(r, ws)
  {
    AboveShared(r.local, [c], []);
    assert r.local + [] == r.local;
  }

  lemma TopIsNew(r: Repo, origin: seq<Commit>, ws: nat, c: Commit)
    requires OnTop(r, ws, c) && View(r, origin, r.nextChange)
    ensures !Carries(r.local, c.change) && c.change < r.nextChange
  {
    assert Placed(LineAt(r, ws), r.local, origin, r.nextChange);
    var h := r.local + [c];
    assert h[|r.local|] == c && forall i :: 0 <= i < |r.local| ==> h[i] == r.local[i];
  }

  /** Such a commit is rebased to where it is. */
  lemma RebaseOnTop(s: State, p: nat, c: Commit)
    requires Is(s, p, Holding) && OnTop(s.repo, s.procs[p].ws, c) && s.repo.origin <= s.repo.local && !Carries(s.repo.local, c.change)
    ensures Step(s, Rebase(p)) == At(s, p, Rebased(s.repo, s.repo.local))
  {
    TopContinues(s.repo, s.procs[p].ws, c);
    assert Fetched(s.repo) == s.repo;
    assert Onto(s.repo, s.procs[p].ws) == s.repo by { hide Work; }
    hide Onto, Fetched, Work;
    assert s.(repo := s.repo) == s;
  }

  lemma MoveOnTop(s: State, p: nat, c: Commit)
    requires p in s.procs && s.procs[p].phase.Rebased? && OnTop(s.repo, s.procs[p].ws, c)
    ensures var main := s.repo.local + [c];
            Step(s, Move(p)) == At(s.(repo := s.repo.(local := main, work := s.repo.work[s.procs[p].ws := Line(main, [])])),
                                   p, Moved(s.procs[p].phase.before, main))
  {
    TopContinues(s.repo, s.procs[p].ws, c);
    hide Work, Onto, Fetched, Continues, Head;
  }

  /** The retry: a commit from outside is fetched after the gate ran, and the bookmark move lands over it without another. */
  lemma UngatedLanding(s: State, p: nat, c: Commit, issue: nat)
    requires Sound(s) && Is(s, p, Holding) && OnTop(s.repo, s.procs[p].ws, c) && s.repo.origin == s.repo.local
    ensures var f := Commit(issue, s.repo.nextChange);
            var t := FoldAll(Step, s, [Rebase(p), Outside(issue), FetchElsewhere]);
            var u := Step(t, Move(p));
            && Is(t, p, Rebased(s.repo, s.repo.local))
            && u.repo.local == s.repo.local + [f] + [c] && Is(u, p, Moved(s.repo, u.repo.local))
  {
    var ws, f := s.procs[p].ws, Commit(issue, s.repo.nextChange);
    FoldAllThree(Step, s, Rebase(p), Outside(issue), FetchElsewhere);
    TopIsNew(s.repo, s.repo.origin, ws, c);
    hide FoldAll, Sound, Onto, Work, Rebasing;
    RebaseOnTop(s, p, c);
    var s1 := Step(s, Rebase(p));
    var t := Step(Step(s1, Outside(issue)), FetchElsewhere);
    assert t.procs == s1.procs && t.repo.local == s.repo.local + [f] == t.repo.origin && t.repo.work == s.repo.work;
    hide FoldAll, Sound, Step;
    RetryLands(t, p, s.repo.local, f, c);
  }

  /** A commit one behind main is rebased and lands in the second attempt. */
  lemma RetryLands(t: State, p: nat, m: seq<Commit>, f: Commit, c: Commit)
    requires p in t.procs && t.procs[p].phase.Rebased? && LineAt(t.repo, t.procs[p].ws) == Line(m, [c])
    requires t.repo.local == m + [f] == t.repo.origin && c != f && !Carries(m + [f], c.change)
    ensures var u := Step(t, Move(p)); u.repo.local == m + [f] + [c] && Is(u, p, Moved(t.procs[p].phase.before, u.repo.local))
  {
    var ws := t.procs[p].ws;
    AboveShared(m, [c], [f]);
    assert Work(t.repo, ws) == [c];
    assert !Continues(t.repo, ws) by { assert (m + [c])[|m|] != (m + [f])[|m|]; }
    assert Fetched(t.repo) == t.repo;
    var r := Onto(t.repo, ws);
    assert OnTop(r, ws, c) by { hide Work; }
    TopContinues(r, ws, c);
    hide Work, Onto, Fetched, Continues, Head;
  }

  // --- What stays on main ---------------------------------------------------------------------

  /** From every state, a step keeps main growing if and only if it does not restore a main that is not ahead. */
  lemma MainGrows(s: State, l: Label)
    ensures s.repo.local <= Step(s, l).repo.local <==> (Restores(s, l) ==> s.repo.local <= s.procs[l.p].phase.before.local)
  {
    if Restores(s, l) {
      RestoreStep(s, l);
    } else if Step(s, l).repo.local != s.repo.local {
      OneCommitLands(s, l);
      FetchedParts(s.repo);
    }
    hide Step, Advances, Continues, Work, Fetched, MovedFrom;
  }

  /** A restore whose captured main does not hold this one. */
  predicate Drops(s: State, l: Label, main: seq<Commit>) {
    Restores(s, l) && !(main <= s.procs[l.p].phase.before.local)
  }

  lemma DropsExactly(s: State, l: Label, main: seq<Commit>)
    requires main <= s.repo.local
    ensures main <= Step(s, l).repo.local <==> !Drops(s, l, main)
  {
    MainGrows(s, l);
    if Restores(s, l) { RestoreStep(s, l); }
    hide Step;
  }

  /** Whatever was once on main stays there through a run, of any number of processes, if and only if no restore goes back
      to a main captured without it. */
  lemma StaysOnMain(s: State, ls: seq<Label>, main: seq<Commit>)
    requires main <= s.repo.local
    ensures GoodThroughout(Step, (t: State) => main <= t.repo.local, s, ls) <==>
            NoBadStep(Step, (t: State, l: Label) => Drops(t, l, main), s, ls)
  {
    hide GoodThroughout, NoBadStep, Step, Drops;
    forall t: State, l
      ensures main <= t.repo.local ==> (main <= Step(t, l).repo.local <==> !Drops(t, l, main))
    {
      if main <= t.repo.local { DropsExactly(t, l, main); }
    }
    GoodRuns(Step, (t: State) => true, (t: State) => main <= t.repo.local, (t: State, l: Label) => Drops(t, l, main), s, ls);
  }

  /** Once at the origin, a main stays there through every run. */
  lemma {:induction false} StaysAtOrigin(s: State, ls: seq<Label>)
    ensures s.repo.origin <= FoldAll(Step, s, ls).repo.origin
  {
    if ls != [] {
      hide Step;
      StaysAtOrigin(s, ls[..|ls| - 1]);
      OriginGrows(FoldAll(Step, s, ls[..|ls| - 1]), ls[|ls| - 1]);
    }
  }

  predicate ProperPrefix(a: seq<Commit>, b: seq<Commit>) {
    a <= b && a != b
  }

  /** The main a process has seen or left. */
  function Saw(ph: Phase): seq<Commit>
    requires Captured(ph)
  {
    if ph.Rebased? then ph.before.local else ph.main
  }

  /** Main still holds what the process saw when it captured its operation, then what it landed, and so does the origin
      once it has pushed. */
  predicate Knows(r: Repo, ph: Phase) {
    Captured(ph) ==>
      && Saw(ph) <= r.local && (!ph.Rebased? ==> ProperPrefix(ph.before.local, ph.main))
      && (ph.Pushed? ==> ph.main <= r.origin)
  }

  ghost predicate AllKnow(s: State) {
    forall p :: p in s.procs ==> Knows(s.repo, s.procs[p].phase)
  }

  /** A restore goes back behind what another process has seen or landed. */
  ghost predicate TakesBack(s: State, l: Label) {
    && Restores(s, l)
    && exists p :: p in s.procs && p != l.p && Captured(s.procs[p].phase) && !(Saw(s.procs[p].phase) <= s.procs[l.p].phase.before.local)
  }

  lemma RestoreKnows(s: State, l: Label)
    requires AllKnow(s) && Restores(s, l)
    ensures AllKnow(Step(s, l)) <==> !TakesBack(s, l)
  {
    var t := Step(s, l);
    RestoreStep(s, l);
    hide Step;
    if TakesBack(s, l) {
      var p :| p in s.procs && p != l.p && Captured(s.procs[p].phase) && !(Saw(s.procs[p].phase) <= s.procs[l.p].phase.before.local);
      assert p in t.procs && t.procs[p] == s.procs[p];
    } else {
      forall p | p in t.procs
        ensures Knows(t.repo, t.procs[p].phase)
      {
        if p != l.p { assert t.procs[p] == s.procs[p] && Knows(s.repo, s.procs[p].phase); }
      }
    }
  }

  /** Which step puts a process into each phase of its critical section. */
  lemma PhaseReached(s: State, l: Label, p: nat)
    requires p in Step(s, l).procs && Captured(Step(s, l).procs[p].phase) && (p !in s.procs || Step(s, l).procs[p] != s.procs[p])
    ensures p in s.procs
    ensures var t := Step(s, l);
            || (l == Rebase(p) && t.procs[p].phase.Rebased? && t.procs[p].phase.before.local == Fetched(s.repo).local)
            || (l == Move(p) && Advances(s, p) && t.repo == Landed(MovedFrom(s, p), s.procs[p].ws)
                && t.procs[p].phase == Moved(s.procs[p].phase.before, t.repo.local))
            || (l == Push(p) && s.procs[p].phase.Moved? && t.repo == s.repo.(origin := s.repo.local)
                && t.procs[p].phase == Pushed(s.procs[p].phase.before, s.procs[p].phase.main))
  {
    hide Work, Onto, Fetched, Continues, Head, Writing, Acceptable, LockAt, Restored, Destination;
  }

  lemma OwnKnows(s: State, l: Label, p: nat)
    requires AllKnow(s) && p in Step(s, l).procs && Captured(Step(s, l).procs[p].phase)
    requires p !in s.procs || Step(s, l).procs[p] != s.procs[p]
    ensures Knows(Step(s, l).repo, Step(s, l).procs[p].phase)
  {
    PhaseReached(s, l, p);
    assert Knows(s.repo, s.procs[p].phase);
    var t := Step(s, l);
    RepoStep(s, l);
    OntoParts(Fetched(s.repo), s.procs[p].ws, Line([], []));
    FetchedParts(s.repo);
    if l == Move(p) && Advances(s, p) {
      var c := MoveLands(s, p);
    }
    hide Step, Onto, Fetched, Work, Continues, Advances;
  }

  lemma KnowsExactly(s: State, l: Label)
    requires AllKnow(s)
    ensures AllKnow(Step(s, l)) <==> !TakesBack(s, l)
  {
    if Restores(s, l) {
      RestoreKnows(s, l);
    } else {
      var t := Step(s, l);
      MainGrows(s, l);
      OriginGrows(s, l);
      forall p | p in t.procs
        ensures Knows(t.repo, t.procs[p].phase)
      {
        hide Step;
        if p in s.procs && t.procs[p] == s.procs[p] {
          assert Knows(s.repo, s.procs[p].phase);
        } else if Captured(t.procs[p].phase) {
          OwnKnows(s, l, p);
        }
      }
    }
  }

  /** Throughout a run every process finds on main what it saw and landed, and at the origin what it pushed, if and only if
      no restore goes back behind what another has seen or landed. */
  lemma KnowingRuns(ls: seq<Label>)
    ensures GoodThroughout(Step, AllKnow, Start, ls) <==> NoBadStep(Step, TakesBack, Start, ls)
  {
    assert AllKnow(Start);
    hide GoodThroughout, NoBadStep, Step, AllKnow, TakesBack;
    forall s, l
      ensures AllKnow(s) ==> (AllKnow(Step(s, l)) <==> !TakesBack(s, l))
    {
      if AllKnow(s) { KnowsExactly(s, l); }
    }
    GoodRuns(Step, (s: State) => true, AllKnow, TakesBack, Start, ls);
  }

  /** A signal that arrives once the bookmark has moved: its handler restores the old main all the same. */
  predicate LateSignal(s: State, l: Label) {
    l.Signal? && l.p in s.procs && (s.procs[l.p].phase.Moved? || s.procs[l.p].phase.Pushed?)
  }

  /** Such a signal takes what the process landed off main if and only if the operation was captured without it. Where
      nothing has been taken back before, it always does, and after a push leaves main behind the origin. */
  lemma LateSignalFallsBehind(s: State, l: Label)
    requires LateSignal(s, l)
    ensures s.procs[l.p].phase.main <= Step(s, l).repo.local <==> s.procs[l.p].phase.main <= s.procs[l.p].phase.before.local
    ensures AllKnow(s) ==> !(s.procs[l.p].phase.main <= Step(s, l).repo.local)
    ensures AllKnow(s) && s.procs[l.p].phase.Pushed? ==> ProperPrefix(Step(s, l).repo.local, Step(s, l).repo.origin)
  {
    RestoreStep(s, l);
    if AllKnow(s) { assert Knows(s.repo, s.procs[l.p].phase); }
    hide Step;
  }

  /** With at most one process integrating there is nobody to take anything back from. */
  lemma ExclusiveRunsKnow(ls: seq<Label>)
    requires GoodThroughout(Step, Exclusive, Start, ls)
    ensures GoodThroughout(Step, AllKnow, Start, ls)
  {
    KnowingRuns(ls);
    hide AllKnow;
    forall n {:trigger ls[..n]} | 0 <= n < |ls|
      ensures !TakesBack(Run(ls[..n]), ls[n])
    {
      var s, l := Run(ls[..n]), ls[n];
      assert Exclusive(s);
      hide Step;
      assert forall p :: p in s.procs && Captured(s.procs[p].phase) ==> Critical(s, p);
    }
  }

  /** No commit that a restore before the bookmark move would bring back has been pushed. */
  ghost predicate Unpushed(s: State) {
    forall p :: p in s.procs && s.procs[p].phase.Rebased? ==> forall ws :: Apart(Own(s.procs[p].phase.before, ws), s.repo.origin)
  }

  /** While a process that integrates alone is between rebase and bookmark move, only others push, and only new commits. */
  lemma AloneUnpushed(s: State, l: Label, p: nat, ws: nat)
    requires Sound(s) && Exclusive(s) && p in s.procs && s.procs[p].phase.Rebased?
    requires Apart(Own(s.procs[p].phase.before, ws), s.repo.origin)
    ensures Apart(Own(s.procs[p].phase.before, ws), Step(s, l).repo.origin)
  {
    var b := s.procs[p].phase.before;
    if l.Outside? {
      assert Earlier(b, s.repo);
      OwnBelow(b, ws);
    } else {
      assert forall q :: q in s.procs && Integrating(s.procs[q].phase) ==> Critical(s, q);
      OriginStays(s, l);
    }
  }

  lemma OriginStays(s: State, l: Label)
    requires !l.Outside? && !(l.Push? && l.p in s.procs && s.procs[l.p].phase.Moved?)
    ensures Step(s, l).repo.origin == s.repo.origin
  {
    hide Work, Continues, Head, Acceptable, LockAt, Destination, Carries;
  }

  lemma StepUnpushed(s: State, l: Label)
    requires Sound(s) && Once(s) && Exclusive(s) && Unpushed(s)
    ensures Unpushed(Step(s, l))
  {
    var t := Step(s, l);
    forall p, ws | p in t.procs && t.procs[p].phase.Rebased?
      ensures Apart(Own(t.procs[p].phase.before, ws), t.repo.origin)
    {
      if p in s.procs && t.procs[p] == s.procs[p] {
        hide Step, Sound, Once, Exclusive;
        AloneUnpushed(s, l, p, ws);
      } else {
        PhaseReached(s, l, p);
        CaptureStep(s, l, p);
        OriginStays(s, l);
        FetchedParts(s.repo);
        hide Step, Sound, Exclusive, Fetched;
        assert Clear(s.repo) && Own(t.procs[p].phase.before, ws) == Own(s.repo, ws);
      }
    }
  }

  lemma {:induction false} AloneOnce(ls: seq<Label>)
    requires GoodThroughout(Step, Exclusive, Start, ls) && NoBadStep(Step, LateSignal, Start, ls)
    ensures Once(Run(ls)) && Unpushed(Run(ls)) && NoBadStep(Step, Reappears, Start, ls)
  {
    if ls == [] {
      assert forall ws :: Own(Start.repo, ws) == [];
    } else {
      var init, l := ls[..|ls| - 1], ls[|ls| - 1];
      GoodThroughoutPush(Step, Exclusive, Start, ls);
      NoBadStepPush(Step, LateSignal, Start, ls);
      NoBadStepPush(Step, Reappears, Start, ls);
      AloneOnce(init);
      EveryRunSound(init);
      GoodAtEnd(Step, Exclusive, Start, init);
      var s := Run(init);
      assert !Reappears(s, l) by { hide Step, Sound, Exclusive, GoodThroughout, NoBadStep; }
      hide Step, Sound, Once, Exclusive, Unpushed, Reappears, GoodThroughout, NoBadStep;
      OnceExactly(s, l);
      StepUnpushed(s, l);
    }
  }

  /** With at most one process integrating, and no late signal, nothing is ever in two places. */
  lemma ExclusiveRunsOnce(ls: seq<Label>)
    requires GoodThroughout(Step, Exclusive, Start, ls) && NoBadStep(Step, LateSignal, Start, ls)
    ensures GoodThroughout(Step, Once, Start, ls)
  {
    hide Step, Once, Exclusive, Reappears, GoodThroughout, NoBadStep, LateSignal;
    AloneOnce(ls);
    OnceRuns(ls);
  }

  // --- What is published -----------------------------------------------------------------------

  /** Whoever has pushed finds what it landed at the origin. */
  ghost predicate Published(s: State) {
    forall p :: p in s.procs && s.procs[p].phase.Pushed? ==> s.procs[p].phase.main <= s.repo.origin
  }

  /** A push of a main that no longer holds what the process landed. */
  predicate PushesWithout(s: State, l: Label) {
    && l.Push? && l.p in s.procs && s.procs[l.p].phase.Moved? && s.repo.origin <= s.repo.local
    && !(s.procs[l.p].phase.main <= s.repo.local)
  }

  lemma PublishesExactly(s: State, l: Label)
    requires Published(s)
    ensures Published(Step(s, l)) <==> !PushesWithout(s, l)
  {
    var t := Step(s, l);
    OriginGrows(s, l);
    if PushesWithout(s, l) {
      assert t.procs[l.p].phase.Pushed? && t.repo.origin == s.repo.local;
    } else {
      forall p | p in t.procs && t.procs[p].phase.Pushed?
        ensures t.procs[p].phase.main <= t.repo.origin
      {
        if p !in s.procs || t.procs[p] != s.procs[p] { PhaseReached(s, l, p); }
        hide Step;
      }
    }
  }

  /** Throughout a run what is pushed for a process is what it landed, if and only if no push comes after a restore has
      taken that off main. */
  lemma PublishedRuns(ls: seq<Label>)
    ensures GoodThroughout(Step, Published, Start, ls) <==> NoBadStep(Step, PushesWithout, Start, ls)
  {
    assert Published(Start);
    hide GoodThroughout, NoBadStep, Step, Published, PushesWithout;
    forall s, l
      ensures Published(s) ==> (Published(Step(s, l)) <==> !PushesWithout(s, l))
    {
      if Published(s) { PublishesExactly(s, l); }
    }
    GoodRuns(Step, (s: State) => true, Published, PushesWithout, Start, ls);
  }

  // --- What a restore takes back -------------------------------------------------------------------

  /** What a step puts in a workspace, if anything: a checkout or new commits, the rebased commit, nothing over the main it
      landed on, or what a restore brings back. */
  function Put(s: State, l: Label, ws: nat): Option<Line> {
    if l.Checkout? && l.ws == ws then Some(Line(s.repo.local, []))
    else if l.Author? && l.ws == ws then Some(Line(LineAt(s.repo, ws).on, Authored(l.issues, s.repo.nextChange)))
    else if Restores(s, l) then Some(LineAt(s.procs[l.p].phase.before, ws))
    else if l.Move? && Advances(s, l.p) && s.procs[l.p].ws == ws then Some(Line(Head(MovedFrom(s, l.p), ws), []))
    else if Retargets(s, l) && s.procs[l.p].ws == ws then
      var w, to := Work(Fetched(s.repo), ws), Destination(Fetched(s.repo));
      Some(Line(to, if Carries(to, w[0].change) then [] else w))
    else None
  }

  /** The step rebases its workspace's one commit, and does not land it. */
  predicate Retargets(s: State, l: Label) {
    && Acts(s, l) && |Work(Fetched(s.repo), s.procs[l.p].ws)| == 1
    && (((l.Rebase? || l.Conflict?) && Is(s, l.p, Holding))
        || (l.Move? && s.procs[l.p].phase.Rebased? && Work(s.repo, s.procs[l.p].ws) != [] && !Advances(s, l.p)))
  }

  function LastPut(s: State, ls: seq<Label>, ws: nat): Option<Line> {
    if ls == [] then None
    else
      var init := ls[..|ls| - 1];
      var put := Put(FoldAll(Step, s, init), ls[|ls| - 1], ws);
      if put.Some? then put else LastPut(s, init, ws)
  }

  lemma OntoAt(r: Repo, ws: nat, w: nat)
    ensures w != ws || |Work(r, ws)| != 1 ==> LineAt(Onto(r, ws), w) == LineAt(r, w)
    ensures |Work(r, ws)| == 1 ==>
      LineAt(Onto(r, ws), ws) == Line(Destination(r), if Carries(Destination(r), Work(r, ws)[0].change) then [] else Work(r, ws))
  {
    hide Work, Destination, Carries;
  }

  lemma LineOfLanded(r: Repo, ws: nat, w: nat)
    ensures LineAt(Landed(r, ws), w) == if w == ws then Line(Head(r, ws), []) else LineAt(r, w)
  {
    hide Head;
  }

  lemma PutMove(s: State, p: nat, ws: nat)
    requires p in s.procs && s.procs[p].phase.Rebased?
    ensures LineAt(Step(s, Move(p)).repo, ws) == match Put(s, Move(p), ws) case Some(n) => n case None => LineAt(s.repo, ws)
  {
    var w := s.procs[p].ws;
    FetchedParts(s.repo);
    OntoAt(Fetched(s.repo), w, ws);
    LineOfLanded(s.repo, w, ws);
    LineOfLanded(Onto(Fetched(s.repo), w), w, ws);
    assert LineAt(Fetched(s.repo), ws) == LineAt(s.repo, ws);
    hide Work, Destination, Head, Carries, LockAt, Fetched, Onto, Continues, Landed, LineAt, Authored;
  }

  lemma RebaseRepo(s: State, l: Label)
    requires (l.Rebase? || l.Conflict?) && Is(s, l.p, Holding)
    ensures var f, ws := Fetched(s.repo), s.procs[l.p].ws;
            Step(s, l).repo.work == if |Work(f, ws)| == 1 then Onto(f, ws).work else s.repo.work
  {
    FetchedParts(s.repo);
    OntoParts(Fetched(s.repo), s.procs[l.p].ws, Line([], []));
    assert |Work(Fetched(s.repo), s.procs[l.p].ws)| != 1 ==> Onto(Fetched(s.repo), s.procs[l.p].ws) == Fetched(s.repo);
    hide Work, Destination, Head, Carries, LockAt, Fetched, Onto, LineAt;
  }

  lemma PutRebase(s: State, l: Label, ws: nat)
    requires (l.Rebase? || l.Conflict?) && Is(s, l.p, Holding)
    ensures LineAt(Step(s, l).repo, ws) == match Put(s, l, ws) case Some(n) => n case None => LineAt(s.repo, ws)
  {
    FetchedParts(s.repo);
    RebaseRepo(s, l);
    OntoAt(Fetched(s.repo), s.procs[l.p].ws, ws);
    hide Step, Work, Destination, Head, Carries, Fetched, Onto, Advances, Authored;
  }

  lemma PutStep(s: State, l: Label, ws: nat)
    ensures LineAt(Step(s, l).repo, ws) == match Put(s, l, ws) case Some(n) => n case None => LineAt(s.repo, ws)
  {
    if Restores(s, l) {
      RestoreStep(s, l);
      hide Step, Work, Continues;
    } else if l.Move? && l.p in s.procs && s.procs[l.p].phase.Rebased? {
      PutMove(s, l.p, ws);
    } else if (l.Rebase? || l.Conflict?) && Is(s, l.p, Holding) {
      PutRebase(s, l, ws);
    } else {
      hide Work, Destination, Head, Carries, Acceptable, LockAt, Authored, Continues, Onto;
    }
  }

  /** Workspaces change by what is put in them only. */
  lemma {:induction false} LineAfter(s: State, ls: seq<Label>, ws: nat)
    ensures LineAt(FoldAll(Step, s, ls).repo, ws) == match LastPut(s, ls, ws) case Some(n) => n case None => LineAt(s.repo, ws)
  {
    if ls != [] {
      hide Step, Put, LineAt;
      LineAfter(s, ls[..|ls| - 1], ws);
      PutStep(FoldAll(Step, s, ls[..|ls| - 1]), ls[|ls| - 1], ws);
    }
  }

  lemma OwnCaptured(s: State, l: Label)
    requires Acts(s, l) && (Captured(s.procs[l.p].phase) || Dead(s.procs[l.p].phase))
    ensures var t := Step(s, l);
            && l.p in t.procs && (Captured(t.procs[l.p].phase) || Dead(t.procs[l.p].phase))
            && (Captured(t.procs[l.p].phase) ==> Captured(s.procs[l.p].phase) && t.procs[l.p].phase.before == s.procs[l.p].phase.before)
  {
    hide Work, Onto, Fetched, Continues, Landed, Head, LockAt, LineAt, Restored, MayTake;
  }

  /** A process captures its operation once. */
  lemma CapturedOnce(s: State, l: Label, p: nat)
    requires p in s.procs && (Captured(s.procs[p].phase) || Dead(s.procs[p].phase))
    ensures var t := Step(s, l);
            && p in t.procs && (Captured(t.procs[p].phase) || Dead(t.procs[p].phase))
            && (Captured(t.procs[p].phase) ==> Captured(s.procs[p].phase) && t.procs[p].phase.before == s.procs[p].phase.before)
  {
    if Acts(s, l) && l.p == p { OwnCaptured(s, l); } else { StepMoves(s, l); }
    hide Step;
  }

  lemma {:induction false} CapturedBefore(s: State, ls: seq<Label>, p: nat)
    requires p in s.procs && Captured(s.procs[p].phase)
    ensures var t := FoldAll(Step, s, ls);
            && p in t.procs && (Captured(t.procs[p].phase) || Dead(t.procs[p].phase))
            && (Captured(t.procs[p].phase) ==> t.procs[p].phase.before == s.procs[p].phase.before)
  {
    if ls != [] {
      hide Step;
      CapturedBefore(s, ls[..|ls| - 1], p);
      CapturedOnce(FoldAll(Step, s, ls[..|ls| - 1]), ls[|ls| - 1], p);
    }
  }

  /**
   A restore, at any time after the rebase and whoever else integrates, leaves a workspace alone if and only if nothing was
   put there since the operation was captured, or what was put there last is what had been there. Commits written and
   commits landed since are such a putting.
   */
  lemma RestoreSparesExactly(s: State, p: nat, ls: seq<Label>, l: Label, ws: nat)
    requires Is(s, p, Holding) && Captured(Step(s, Rebase(p)).procs[p].phase)
    requires Restores(FoldAll(Step, s, [Rebase(p)] + ls), l) && l.p == p
    ensures var t, last := FoldAll(Step, s, [Rebase(p)] + ls), LastPut(s, [Rebase(p)] + ls, ws);
            LineAt(Step(t, l).repo, ws) == LineAt(t.repo, ws) <==> last == None || last == Some(LineAt(s.repo, ws))
  {
    var s1, t := Step(s, Rebase(p)), FoldAll(Step, s, [Rebase(p)] + ls);
    assert s1.procs[p].phase.before == Fetched(s.repo) by { CaptureStep(s, Rebase(p), p); }
    FetchedParts(s.repo);
    assert LineAt(Fetched(s.repo), ws) == LineAt(s.repo, ws);
    LineAfter(s, [Rebase(p)] + ls, ws);
    RestoreStep(t, l);
    hide Step, FoldAll, LastPut, Fetched;
    FoldAllOne(Step, s, Rebase(p));
    FoldAllConcat(Step, s, [Rebase(p)], ls);
    CapturedBefore(s1, ls, p);
  }

  /** After a restore nothing that was written since the operation was captured is on main or in a workspace. */
  lemma RestoreForgets(ls: seq<Label>, l: Label, ws: nat)
    requires Restores(Run(ls), l)
    ensures var r, b := Step(Run(ls), l).repo, Run(ls).procs[l.p].phase.before;
            Below(r.local, b.nextChange) && Below(Head(r, ws), b.nextChange)
  {
    EveryRunSound(ls);
    var s := Run(ls);
    RestoreStep(s, l);
    hide Step;
    var b := s.procs[l.p].phase.before;
    assert Earlier(b, s.repo);
    assert Placed(LineAt(b, ws), b.local, b.origin, b.nextChange);
  }
}
