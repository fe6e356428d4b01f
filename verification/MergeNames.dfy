/** Whose commit lands: over every run, exactly when the commits of a living process name its issue. */
module MergeNames {
  import opened Logs
  import opened MergeLands
  import opened MergeLock
  import opened MergeViews
  import opened Runs

  predicate AllName(issues: seq<nat>, issue: nat) {
    forall i :: 0 <= i < |issues| ==> issues[i] == issue
  }

  /** The workspace's own commits that main does not carry name the issue. */
  ghost predicate Names(r: Repo, ws: nat, issue: nat) {
    forall i :: 0 <= i < |Own(r, ws)| ==> Own(r, ws)[i].issue == issue || Carries(r.local, Own(r, ws)[i].change)
  }

  /** In the workspace of every living process they name its issue. */
  ghost predicate Named(s: State) {
    forall p :: Alive(s, p) ==> Names(s.repo, s.procs[p].ws, s.procs[p].issue)
  }

  /** Under a living process, its workspace is given a commit that names another issue: written there after the checks
      were made, or brought back by a restore of another process. */
  ghost predicate Renames(s: State, l: Label) {
    || (l.Author? && exists p :: Alive(s, p) && s.procs[p].ws == l.ws && !AllName(l.issues, s.procs[p].issue))
    || (Restores(s, l) && exists p :: Alive(s, p) && p != l.p && !Names(s.procs[l.p].phase.before, s.procs[p].ws, s.procs[p].issue))
  }

  /** Main grows, and the workspace keeps its own commits or fewer of them. */
  lemma FewerName(r: Repo, t: Repo, ws: nat, issue: nat)
    requires Names(r, ws, issue) && r.local <= t.local && Fewer(Own(t, ws), Own(r, ws))
    ensures Names(t, ws, issue)
  {
    assert forall c :: Carries(r.local, c) ==> Carries(t.local, c);
  }

  /** The repository a bookmark move starts from. */
  lemma MovedFromOwn(s: State, p: nat, ws: nat)
    requires Sound(s) && p in s.procs
    ensures var r := MovedFrom(s, p); s.repo.local <= r.local && Fewer(Own(r, ws), Own(s.repo, ws))
  {
    FetchView(s.repo);
    FetchedParts(s.repo);
    hide View, Fetched, Continues, Onto;
    OntoLine(Fetched(s.repo), s.procs[p].ws, ws);
  }

  lemma LandedOwn(s: State, p: nat, ws: nat)
    requires Sound(s) && Advances(s, p)
    ensures var r := Landed(MovedFrom(s, p), s.procs[p].ws); s.repo.local <= r.local && Fewer(Own(r, ws), Own(s.repo, ws))
  {
    MovedFromOwn(s, p, ws);
    MovedFromContinues(s, p);
    hide Continues, Work, MovedFrom, Sound, Fewer;
    var c := OneAbove(MovedFrom(s, p), s.procs[p].ws);
    LineOfLanded(MovedFrom(s, p), s.procs[p].ws, ws);
    assert Fewer([], Own(s.repo, ws)) by { EmptyIsFewer(Own(s.repo, ws)); }
  }

  lemma EmptyIsFewer(own: seq<Commit>)
    ensures Fewer([], own) && Fewer(own, own)
  {
  }

  /** A step that neither writes commits nor restores leaves a workspace its own commits or fewer, and main grows. */
  lemma OwnStep(s: State, l: Label, ws: nat)
    requires Sound(s) && !l.Author? && !Restores(s, l)
    ensures var r := Step(s, l).repo; s.repo.local <= r.local && Fewer(Own(r, ws), Own(s.repo, ws))
  {
    RepoStep(s, l);
    FetchView(s.repo);
    FetchedParts(s.repo);
    EmptyIsFewer(Own(s.repo, ws));
    hide Step, View, Fetched, Continues, Work, Destination, Onto, MovedFrom, Sound, Fewer, Landed;
    if l.Move? && Advances(s, l.p) { LandedOwn(s, l.p, ws); }
    if Rebases(l) && l.p in s.procs { OntoLine(Fetched(s.repo), s.procs[l.p].ws, ws); }
  }

  lemma OntoLine(r: Repo, ws: nat, w: nat)
    requires View(r, r.origin, r.nextChange) && UpToDate(r)
    ensures Onto(r, ws).local == r.local && Fewer(Own(Onto(r, ws), w), Own(r, w))
  {
    if |Work(r, ws)| == 1 { OntoOwn(r, ws); }
  }

  /** The checks of a launch see every commit of the workspace that main does not carry. */
  lemma {:induction false} AboveHas(line: seq<Commit>, main: seq<Commit>, i: nat)
    requires i < |line| && !Carries(main, line[i].change)
    ensures line[i] in Above(line, main)
  {
    if line != [] && main != [] && line[0] == main[0] {
      assert Carries(main, line[0].change);
      assert forall c :: Carries(main[1..], c) ==> Carries(main, c) by {
        assert forall j :: 0 <= j < |main| - 1 ==> main[1..][j] == main[j + 1];
      }
      AboveHas(line[1..], main[1..], i - 1);
    }
  }

  lemma AcceptedNames(r: Repo, ws: nat, issue: nat)
    requires Acceptable(Work(r, ws), issue)
    ensures Names(r, ws, issue)
  {
    var n := LineAt(r, ws);
    forall i | 0 <= i < |n.own|
      ensures n.own[i].issue == issue || Carries(r.local, n.own[i].change)
    {
      assert Head(r, ws)[|n.on| + i] == n.own[i];
      if !Carries(r.local, n.own[i].change) { AboveHas(Head(r, ws), r.local, |n.on| + i); }
    }
  }

  /** The processes alive after a step that launches none were alive before, in the same workspace for the same issue. */
  lemma AliveBefore(s: State, l: Label, p: nat)
    requires !l.Launch? && Alive(Step(s, l), p)
    ensures Alive(s, p) && Step(s, l).procs[p].ws == s.procs[p].ws && Step(s, l).procs[p].issue == s.procs[p].issue
  {
    StepMoves(s, l);
    hide Step;
  }

  lemma LaunchNamed(s: State, l: Label)
    requires l.Launch? && Named(s)
    ensures Named(Step(s, l))
  {
    var t := Step(s, l);
    if Acceptable(Work(s.repo, l.ws), l.issue) { AcceptedNames(s.repo, l.ws, l.issue); }
    hide Names, Acceptable, Work;
    assert t.repo == s.repo;
    forall p | Alive(t, p)
      ensures Names(t.repo, t.procs[p].ws, t.procs[p].issue)
    {
      if p in s.procs { assert Alive(s, p); }
    }
  }

  lemma WrittenNames(s: State, l: Label, ws: nat, issue: nat)
    requires Sound(s) && l.Author? && Names(s.repo, ws, issue)
    ensures Names(Step(s, l).repo, ws, issue) <==> (ws == l.ws ==> AllName(l.issues, issue))
  {
    var r, t := s.repo, Step(s, l).repo;
    assert t.local == r.local && Own(t, ws) == if ws == l.ws then Authored(l.issues, r.nextChange) else Own(r, ws);
    hide Step;
    if ws == l.ws {
      assert Below(r.local, r.nextChange) && forall i :: 0 <= i < |l.issues| ==> Own(t, ws)[i] == Commit(l.issues[i], r.nextChange + i);
      assert Names(t, ws, issue) ==> AllName(l.issues, issue) by {
        if Names(t, ws, issue) {
          forall i | 0 <= i < |l.issues|
            ensures l.issues[i] == issue
          {
            assert Own(t, ws)[i].issue == issue || Carries(r.local, Own(t, ws)[i].change);
          }
        }
      }
    }
  }

  lemma AuthorNames(s: State, l: Label)
    requires Sound(s) && Named(s) && l.Author?
    ensures Named(Step(s, l)) <==> !Renames(s, l)
  {
    var t := Step(s, l);
    forall p | Alive(s, p)
      ensures Names(t.repo, s.procs[p].ws, s.procs[p].issue) <==> (s.procs[p].ws == l.ws ==> AllName(l.issues, s.procs[p].issue))
    {
      WrittenNames(s, l, s.procs[p].ws, s.procs[p].issue);
    }
    assert t.procs == s.procs;
    hide Step, AllName, Names;
    assert forall p :: Alive(t, p) <==> Alive(s, p);
  }

  lemma RestoreNames(s: State, l: Label)
    requires Named(s) && Restores(s, l)
    ensures Named(Step(s, l)) <==> !Renames(s, l)
  {
    var t := Step(s, l);
    RestoreStep(s, l);
    hide Step;
    assert forall w :: Own(t.repo, w) == Own(s.procs[l.p].phase.before, w);
    assert forall w, i :: Names(t.repo, w, i) <==> Names(s.procs[l.p].phase.before, w, i);
    hide Names;
    assert forall p :: Alive(t, p) <==> Alive(s, p) && p != l.p;
  }

  /** A step keeps every living process's workspace to its own issue if and only if it does not rename one. */
  lemma NamesExactly(s: State, l: Label)
    requires Sound(s) && Named(s)
    ensures Named(Step(s, l)) <==> !Renames(s, l)
  {
    if l.Author? {
      AuthorNames(s, l);
    } else if Restores(s, l) {
      RestoreNames(s, l);
    } else if l.Launch? {
      LaunchNamed(s, l);
      hide Step;
    } else {
      var t := Step(s, l);
      hide Step, AllName, Names, Sound;
      forall p | Alive(t, p)
        ensures Names(t.repo, t.procs[p].ws, t.procs[p].issue)
      {
        AliveBefore(s, l, p);
        OwnStep(s, l, s.procs[p].ws);
        FewerName(s.repo, t.repo, s.procs[p].ws, s.procs[p].issue);
      }
    }
  }

  /** Throughout a run the commits of living processes name their issues if and only if no step renames one. */
  lemma NamedRuns(ls: seq<Label>)
    ensures GoodThroughout(Step, Named, Start, ls) <==> NoBadStep(Step, Renames, Start, ls)
  {
    StartSound();
    assert Named(Start);
    hide GoodThroughout, NoBadStep, Step, Named, Renames, Sound;
    forall s, l | Sound(s)
      ensures Sound(Step(s, l)) && (Named(s) ==> (Named(Step(s, l)) <==> !Renames(s, l)))
    {
      StepSound(s, l);
      if Named(s) { NamesExactly(s, l); }
    }
    GoodRuns(Step, Sound, Named, Renames, Start, ls);
  }

  /** So every commit that lands in such a run names the issue of its process. */
  lemma LandedNamesIssue(ls: seq<Label>, p: nat, c: Commit, r: Repo)
    requires NoBadStep(Step, Renames, Start, ls) && Lands(Run(ls), p, c, r)
    ensures c.issue == Run(ls).procs[p].issue
  {
    NamedRuns(ls);
    EveryRunSound(ls);
    var s := Run(ls);
    GoodAtEnd(Step, Named, Start, ls);
    assert Alive(s, p);
    hide NoBadStep, Renames, Step, FoldAll;
    MovedFromOwn(s, p, s.procs[p].ws);
    FewerName(s.repo, MovedFrom(s, p), s.procs[p].ws, s.procs[p].issue);
    MovedFromView(s, p);
    MovedFromContinues(s, p);
    var d := LandsOwn(MovedFrom(s, p), s.procs[p].ws);
    assert MovedFrom(s, p).local + [d] == MovedFrom(s, p).local + [c] by { var e := OneAbove(MovedFrom(s, p), s.procs[p].ws); }
    assert (MovedFrom(s, p).local + [d])[|MovedFrom(s, p).local|] == d;
  }
}
