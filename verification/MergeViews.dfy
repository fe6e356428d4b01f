/**
 What every run keeps of the repository, however many processes integrate at once: where workspaces sit, that no change
 is on main twice, whose commits are where, and exactly when a published commit comes back into a workspace.
 */
module MergeViews {
  import opened Logs
  import opened MergeLock
  import opened Options
  import opened Runs

  // --- Histories above main ---------------------------------------------------------------

  /** Above main is what follows the longest stretch shared with it. */
  lemma {:induction false} AboveCuts(line: seq<Commit>, main: seq<Commit>) returns (k: nat)
    ensures k <= |line| && line[..k] <= main && Above(line, main) == line[k..]
    ensures main <= line ==> k == |main|
    ensures line <= main ==> k == |line|
  {
    if line != [] && main != [] && line[0] == main[0] {
      var j := AboveCuts(line[1..], main[1..]);
      k := j + 1;
      assert line[..k] == [line[0]] + line[1..][..j];
      assert main == [main[0]] + main[1..];
    } else {
      k := 0;
    }
  }

  lemma {:induction false} AboveShared(m: seq<Commit>, a: seq<Commit>, b: seq<Commit>)
    ensures Above(m + a, m + b) == Above(a, b)
  {
    if m == [] {
      assert m + a == a && m + b == b;
    } else {
      assert (m + a)[1..] == m[1..] + a && (m + b)[1..] == m[1..] + b;
      AboveShared(m[1..], a, b);
    }
  }

  /** With one commit above main and main below, that commit is all there is to main's history and no more. */
  lemma OneAbove(r: Repo, ws: nat) returns (c: Commit)
    requires Continues(r, ws)
    ensures Work(r, ws) == [c] && Head(r, ws) == r.local + [c]
  {
    var k := AboveCuts(Head(r, ws), r.local);
    c := Work(r, ws)[0];
    assert Head(r, ws) == Head(r, ws)[..k] + Head(r, ws)[k..];
  }

  lemma NoneAbove(r: Repo, ws: nat)
    requires Head(r, ws) <= r.local
    ensures Work(r, ws) == []
  {
    var k := AboveCuts(Head(r, ws), r.local);
  }

  // --- What a step does to the repository ---------------------------------------------------

  /** A step whose failure handler restores the captured operation. */
  predicate Restores(s: State, l: Label) {
    || (l.Abort? && l.p in s.procs && s.procs[l.p].phase.Rebased?)
    || (l.Signal? && l.p in s.procs && Captured(s.procs[l.p].phase))
  }

  predicate Fetches(l: Label) {
    l.FetchElsewhere? || l.Rebase? || l.Conflict? || l.Move?
  }

  predicate Rebases(l: Label) {
    l.Rebase? || l.Conflict? || l.Move?
  }

  /** The bookmark move of the process succeeds, at once or after another fetch and rebase. */
  predicate Advances(s: State, p: nat) {
    && p in s.procs && s.procs[p].phase.Rebased? && Work(s.repo, s.procs[p].ws) != []
    && (Continues(s.repo, s.procs[p].ws) || Continues(Onto(Fetched(s.repo), s.procs[p].ws), s.procs[p].ws))
  }

  /** The repository whose bookmark the move moves. */
  function MovedFrom(s: State, p: nat): Repo
    requires p in s.procs
  {
    if Continues(s.repo, s.procs[p].ws) then s.repo else Onto(Fetched(s.repo), s.procs[p].ws)
  }

  /** Everything a step can do to the repository. */
  lemma RepoStep(s: State, l: Label)
    ensures var r := Step(s, l).repo;
            || r == s.repo
            || (l.Checkout? && r == s.repo.(work := s.repo.work[l.ws := Line(s.repo.local, [])]))
            || (l.Author? && r == Writing(s.repo, l.ws, l.issues))
            || (l.Outside? && r == s.repo.(origin := s.repo.origin + [Commit(l.issue, s.repo.nextChange)],
                                           nextChange := s.repo.nextChange + 1))
            || (Fetches(l) && r == Fetched(s.repo))
            || (Rebases(l) && l.p in s.procs && r == Onto(Fetched(s.repo), s.procs[l.p].ws))
            || (l.Push? && s.repo.origin <= s.repo.local && r == s.repo.(origin := s.repo.local))
            || (l.Move? && Advances(s, l.p) && r == Landed(MovedFrom(s, l.p), s.procs[l.p].ws))
            || (Restores(s, l) && r == Restored(s.repo, s.procs[l.p].phase))
  {
    hide Fetched, Onto, Work, Continues, Landed, Head, Writing, Acceptable, LockAt;
  }

  /** The operation a process has captured is the one it had captured, or the repository it has just fetched. */
  lemma CaptureStep(s: State, l: Label, p: nat)
    requires p in Step(s, l).procs && Captured(Step(s, l).procs[p].phase)
    ensures p in s.procs
    ensures var ph := Step(s, l).procs[p].phase;
            || (Captured(s.procs[p].phase) && ph.before == s.procs[p].phase.before)
            || (l == Rebase(p) && Is(s, p, Holding) && ph.before == Fetched(s.repo))
  {
    hide Fetched, Onto, Work, Continues, Landed, Head, Writing, Acceptable, LockAt, Restored, Destination;
  }

  lemma RestoreStep(s: State, l: Label)
    requires Restores(s, l)
    ensures var t := Step(s, l);
            && t.repo == Restored(s.repo, s.procs[l.p].phase)
            && l.p in t.procs && Dead(t.procs[l.p].phase) && t.procs == s.procs[l.p := t.procs[l.p]]
  {
  }

  lemma OriginGrows(s: State, l: Label)
    ensures s.repo.origin <= Step(s, l).repo.origin && s.repo.nextChange <= Step(s, l).repo.nextChange
  {
    RepoStep(s, l);
    hide Step, Work, Continues, Head, Destination;
  }

  // --- Where workspaces sit, and that no change is on main twice -------------------------------

  ghost predicate Below(cs: seq<Commit>, n: nat) {
    forall i :: 0 <= i < |cs| ==> cs[i].change < n
  }

  ghost predicate Distinct(cs: seq<Commit>) {
    forall i, j :: 0 <= i < j < |cs| ==> cs[i].change != cs[j].change
  }

  /** A workspace sits on some earlier main, or on an origin that has parted from main; no change is in its history twice. */
  ghost predicate Placed(n: Line, local: seq<Commit>, origin: seq<Commit>, next: nat) {
    && Distinct(n.on + n.own) && Below(n.on + n.own, next)
    && (n.on <= local || (n.on <= origin && !(local <= n.on)))
  }

  ghost predicate View(r: Repo, origin: seq<Commit>, next: nat) {
    && Distinct(r.local) && Below(r.local, next)
    && forall ws :: Placed(LineAt(r, ws), r.local, origin, next)
  }

  /** An earlier repository, which has grown to this one's origin and numbers. */
  ghost predicate Earlier(b: Repo, r: Repo) {
    b.origin <= r.origin && b.nextChange <= r.nextChange && View(b, b.origin, b.nextChange)
  }

  /** This holds of the repository and of every operation captured for a restore. */
  ghost predicate Sound(s: State) {
    && Distinct(s.repo.origin) && Below(s.repo.origin, s.repo.nextChange) && View(s.repo, s.repo.origin, s.repo.nextChange)
    && forall p :: p in s.procs && Captured(s.procs[p].phase) ==> Earlier(s.procs[p].phase.before, s.repo)
  }

  lemma ViewLater(r: Repo, origin: seq<Commit>, next: nat, o: seq<Commit>, n: nat)
    requires View(r, origin, next) && origin <= o && next <= n
    ensures View(r, o, n)
  {
    forall ws
      ensures Placed(LineAt(r, ws), r.local, o, n)
    {
      assert Placed(LineAt(r, ws), r.local, origin, next);
    }
  }

  lemma FetchView(r: Repo)
    requires View(r, r.origin, r.nextChange) && Distinct(r.origin) && Below(r.origin, r.nextChange)
    ensures View(Fetched(r), r.origin, r.nextChange)
  {
    var f := Fetched(r);
    forall ws
      ensures Placed(LineAt(f, ws), f.local, r.origin, r.nextChange)
    {
      assert Placed(LineAt(r, ws), r.local, r.origin, r.nextChange);
    }
  }

  /** One workspace gets another history. */
  lemma PutView(r: Repo, ws: nat, n: Line, local: seq<Commit>, origin: seq<Commit>, next: nat)
    requires View(r, origin, next) && r.local <= local && Distinct(local) && Below(local, next) && Placed(n, local, origin, next)
    ensures View(r.(local := local, work := r.work[ws := n]), origin, next)
  {
    var t := r.(local := local, work := r.work[ws := n]);
    forall w
      ensures Placed(LineAt(t, w), t.local, origin, next)
    {
      assert Placed(LineAt(r, w), r.local, origin, next);
    }
  }

  lemma WriteView(r: Repo, ws: nat, issues: seq<nat>)
    requires View(r, r.origin, r.nextChange)
    ensures View(Writing(r, ws, issues), r.origin, r.nextChange + |issues|)
  {
    var next := r.nextChange + |issues|;
    ViewLater(r, r.origin, r.nextChange, r.origin, next);
    var n := LineAt(r, ws);
    assert Placed(n, r.local, r.origin, r.nextChange);
    assert Below(n.on, r.nextChange) by { assert forall i :: 0 <= i < |n.on| ==> (n.on + n.own)[i] == n.on[i]; }
    assert Distinct(n.on) by { assert forall i :: 0 <= i < |n.on| ==> (n.on + n.own)[i] == n.on[i]; }
    var line := Line(n.on, Authored(issues, r.nextChange));
    PutView(r, ws, line, r.local, r.origin, next);
    ViewNames(r.(local := r.local, work := r.work[ws := line]), Writing(r, ws, issues), r.origin, next);
  }

  /** After a fetch main and the origin are the same, or main is ahead, or the two have parted. */
  predicate UpToDate(r: Repo) {
    r.local <= r.origin ==> r.local == r.origin
  }

  lemma LastAbove(r: Repo, ws: nat)
    requires |Work(r, ws)| == 1
    ensures Head(r, ws) != [] && Work(r, ws) == [Head(r, ws)[|Head(r, ws)| - 1]]
  {
    var k := AboveCuts(Head(r, ws), r.local);
  }

  lemma RebaseView(r: Repo, ws: nat)
    requires View(r, r.origin, r.nextChange) && Distinct(r.origin) && Below(r.origin, r.nextChange) && UpToDate(r)
    ensures View(Onto(r, ws), r.origin, r.nextChange)
  {
    var w, to := Work(r, ws), Destination(r);
    if |w| == 1 {
      LastAbove(r, ws);
      assert Placed(LineAt(r, ws), r.local, r.origin, r.nextChange);
      var own := if Carries(to, w[0].change) then [] else w;
      assert Distinct(to + own) && Below(to + own, r.nextChange);
      PutView(r, ws, Line(to, own), r.local, r.origin, r.nextChange);
    }
  }

  lemma LandView(r: Repo, ws: nat)
    requires View(r, r.origin, r.nextChange) && Continues(r, ws)
    ensures View(Landed(r, ws), r.origin, r.nextChange)
  {
    assert Placed(LineAt(r, ws), r.local, r.origin, r.nextChange);
    var main := Head(r, ws);
    assert main + [] == main;
    PutView(r, ws, Line(main, []), main, r.origin, r.nextChange);
  }

  /** The repository a bookmark move starts from. */
  lemma MovedFromView(s: State, p: nat)
    requires Sound(s) && p in s.procs
    ensures View(MovedFrom(s, p), s.repo.origin, s.repo.nextChange)
    ensures MovedFrom(s, p).origin == s.repo.origin && MovedFrom(s, p).nextChange == s.repo.nextChange
  {
    FetchView(s.repo);
    RebaseView(Fetched(s.repo), s.procs[p].ws);
  }

  lemma StepView(s: State, l: Label)
    requires Sound(s)
    ensures var r := Step(s, l).repo; Distinct(r.origin) && Below(r.origin, r.nextChange) && View(r, r.origin, r.nextChange)
  {
    var r := Step(s, l).repo;
    RepoStep(s, l);
    FetchView(s.repo);
    hide Step, View, Fetched, Continues, Work, Destination;
    if l.Checkout? {
      CheckoutView(s.repo, l.ws);
    } else if l.Author? {
      WriteView(s.repo, l.ws, l.issues);
    } else if l.Outside? {
      ViewLater(s.repo, s.repo.origin, s.repo.nextChange, s.repo.origin + [Commit(l.issue, s.repo.nextChange)], s.repo.nextChange + 1);
      ViewNames(s.repo, r, r.origin, r.nextChange);
    } else if l.Push? && r != s.repo {
      PushView(s.repo);
    } else if Rebases(l) && l.p in s.procs {
      MovedFromView(s, l.p);
      FetchedParts(s.repo);
      RebaseView(Fetched(s.repo), s.procs[l.p].ws);
      if l.Move? && Advances(s, l.p) {
        MovedFromContinues(s, l.p);
        LandView(MovedFrom(s, l.p), s.procs[l.p].ws);
      }
    } else if Restores(s, l) {
      var b := s.procs[l.p].phase.before;
      assert Earlier(b, s.repo);
      ViewLater(b, b.origin, b.nextChange, s.repo.origin, s.repo.nextChange);
      ViewNames(s.procs[l.p].phase.before, Restored(s.repo, s.procs[l.p].phase), s.repo.origin, s.repo.nextChange);
    }
  }

  lemma MovedFromContinues(s: State, p: nat)
    requires Advances(s, p)
    ensures Continues(MovedFrom(s, p), s.procs[p].ws)
  {
  }

  lemma FetchedParts(r: Repo)
    ensures Fetched(r).origin == r.origin && Fetched(r).nextChange == r.nextChange && Fetched(r).work == r.work && UpToDate(Fetched(r))
    ensures r.local <= Fetched(r).local
  {
  }

  /** A view is about main and the workspaces. */
  lemma ViewNames(r: Repo, t: Repo, origin: seq<Commit>, next: nat)
    requires View(r, origin, next) && t.local == r.local && t.work == r.work
    ensures View(t, origin, next)
  {
    assert forall ws :: LineAt(t, ws) == LineAt(r, ws);
  }

  lemma CheckoutView(r: Repo, ws: nat)
    requires View(r, r.origin, r.nextChange)
    ensures View(r.(work := r.work[ws := Line(r.local, [])]), r.origin, r.nextChange)
  {
    assert r.local + [] == r.local;
    PutView(r, ws, Line(r.local, []), r.local, r.origin, r.nextChange);
  }

  lemma PushView(r: Repo)
    requires View(r, r.origin, r.nextChange) && r.origin <= r.local
    ensures var t := r.(origin := r.local); View(t, t.origin, t.nextChange) && Distinct(t.origin) && Below(t.origin, t.nextChange)
  {
    ViewLater(r, r.origin, r.nextChange, r.local, r.nextChange);
    ViewNames(r, r.(origin := r.local), r.local, r.nextChange);
  }

  lemma StepSound(s: State, l: Label)
    requires Sound(s)
    ensures Sound(Step(s, l))
  {
    var t := Step(s, l);
    StepView(s, l);
    OriginGrows(s, l);
    forall p | p in t.procs && Captured(t.procs[p].phase)
      ensures Earlier(t.procs[p].phase.before, t.repo)
    {
      CaptureStep(s, l, p);
      FetchView(s.repo);
      FetchedParts(s.repo);
      hide Step, View, Fetched;
    }
  }

  lemma StartSound()
    ensures Sound(Start)
  {
    assert forall ws :: LineAt(Start.repo, ws) == Line([], []);
  }

  lemma EveryRunSound(ls: seq<Label>)
    ensures Sound(Run(ls))
  {
    StartSound();
    hide Step, Sound;
    forall s, l | Sound(s)
      ensures Sound(Step(s, l))
    {
      StepSound(s, l);
    }
    Kept(Step, Sound, Start, ls);
  }

  /** In every run, whatever is restored and however many integrate at once, no change is on main, on the origin or in the
      history of a workspace twice. */
  lemma LandsOnce(ls: seq<Label>, ws: nat)
    ensures var r := Run(ls).repo; Distinct(r.local) && Distinct(r.origin) && Distinct(Head(r, ws))
  {
    EveryRunSound(ls);
    var r := Run(ls).repo;
    assert Placed(LineAt(r, ws), r.local, r.origin, r.nextChange);
  }

  // --- When a published commit comes back ---------------------------------------------------------

  ghost predicate Apart(a: seq<Commit>, b: seq<Commit>) {
    forall i, j :: 0 <= i < |a| && 0 <= j < |b| ==> a[i].change != b[j].change
  }

  function Own(r: Repo, ws: nat): seq<Commit> {
    LineAt(r, ws).own
  }

  /** No workspace has a change of its own that is on main or in another workspace too. */
  ghost predicate Tidy(r: Repo) {
    && (forall ws :: Apart(Own(r, ws), r.local))
    && (forall a, b :: a != b ==> Apart(Own(r, a), Own(r, b)))
  }

  /** Nor one that is at the origin. */
  ghost predicate Clear(r: Repo) {
    Tidy(r) && forall ws :: Apart(Own(r, ws), r.origin)
  }

  /** Nothing is in two places, and was not when the captured operations were. */
  ghost predicate Once(s: State) {
    Clear(s.repo) && forall p :: p in s.procs && Captured(s.procs[p].phase) ==> Tidy(s.procs[p].phase.before)
  }

  /** A restore brings back into a workspace a commit that has been pushed since the operation was captured. */
  ghost predicate Reappears(s: State, l: Label) {
    Restores(s, l) && exists ws :: !Apart(Own(s.procs[l.p].phase.before, ws), s.repo.origin)
  }

  lemma OwnBelow(r: Repo, ws: nat)
    requires View(r, r.origin, r.nextChange)
    ensures Below(Own(r, ws), r.nextChange)
  {
    var n := LineAt(r, ws);
    assert Placed(n, r.local, r.origin, r.nextChange);
    assert forall i :: 0 <= i < |n.own| ==> n.own[i] == (n.on + n.own)[|n.on| + i];
  }

  lemma WriteClear(r: Repo, ws: nat, issues: seq<nat>)
    requires Clear(r) && View(r, r.origin, r.nextChange) && Below(r.origin, r.nextChange)
    ensures Clear(Writing(r, ws, issues))
  {
    var t := Writing(r, ws, issues);
    forall w
      ensures Own(t, w) == if w == ws then Authored(issues, r.nextChange) else Own(r, w)
      ensures Below(Own(r, w), r.nextChange)
    {
      OwnBelow(r, w);
    }
    hide View;
    assert Below(r.local, r.nextChange) by { assert View(r, r.origin, r.nextChange); }
  }

  lemma OutsideClear(r: Repo, issue: nat)
    requires Clear(r) && View(r, r.origin, r.nextChange)
    ensures Clear(r.(origin := r.origin + [Commit(issue, r.nextChange)], nextChange := r.nextChange + 1))
  {
    var t := r.(origin := r.origin + [Commit(issue, r.nextChange)], nextChange := r.nextChange + 1);
    forall w
      ensures Own(t, w) == Own(r, w) && Apart(Own(t, w), t.origin)
    {
      OwnBelow(r, w);
    }
  }

  /** All of a workspace's own commits, the last, or none. */
  predicate Fewer(after: seq<Commit>, own: seq<Commit>) {
    after == own || after == [] || (own != [] && after == [own[|own| - 1]])
  }

  /** The workspace loses some of its own commits. */
  lemma FewerClear(r: Repo, ws: nat, n: Line)
    requires Clear(r) && Fewer(n.own, Own(r, ws))
    ensures Clear(r.(work := r.work[ws := n]))
  {
    var t := r.(work := r.work[ws := n]);
    assert forall w :: Own(t, w) == if w == ws then n.own else Own(r, w);
    assert Apart(Own(r, ws), r.local) && Apart(Own(r, ws), r.origin);
  }

  /** What a rebase leaves of a workspace's commits is its own last one, or nothing. */
  lemma OntoOwn(r: Repo, ws: nat)
    requires View(r, r.origin, r.nextChange) && UpToDate(r) && |Work(r, ws)| == 1
    ensures Fewer(Own(Onto(r, ws), ws), Own(r, ws))
  {
    LastAbove(r, ws);
    var n, w := LineAt(r, ws), Work(r, ws);
    assert Placed(n, r.local, r.origin, r.nextChange);
    if n.own == [] {
      assert Head(r, ws) == n.on;
      if n.on <= r.local {
        NoneAbove(r, ws);
        assert false;
      } else {
        assert Destination(r) == r.origin && r.origin[|n.on| - 1] == w[0];
        assert Carries(r.origin, w[0].change);
      }
    }
  }

  /** A commit that lands is its workspace's own. */
  lemma LandsOwn(r: Repo, ws: nat) returns (c: Commit)
    requires View(r, r.origin, r.nextChange) && Continues(r, ws)
    ensures Head(r, ws) == r.local + [c] && Own(r, ws) != [] && Own(r, ws)[|Own(r, ws)| - 1] == c && !Carries(r.local, c.change)
  {
    c := OneAbove(r, ws);
    var n, h := LineAt(r, ws), Head(r, ws);
    assert Placed(n, r.local, r.origin, r.nextChange);
    assert n.own == [] ==> h == n.on;
    assert h[|h| - 1] == c;
  }

  lemma FetchClear(r: Repo)
    requires Clear(r)
    ensures Clear(Fetched(r))
  {
    assert forall w :: Own(Fetched(r), w) == Own(r, w);
  }

  lemma RebaseClear(r: Repo, ws: nat)
    requires Clear(r) && View(r, r.origin, r.nextChange) && UpToDate(r)
    ensures Clear(Onto(r, ws))
  {
    if |Work(r, ws)| == 1 {
      OntoOwn(r, ws);
      FewerClear(r, ws, LineAt(Onto(r, ws), ws));
    }
  }

  lemma LandClear(r: Repo, ws: nat)
    requires Clear(r) && View(r, r.origin, r.nextChange) && Continues(r, ws)
    ensures Clear(Landed(r, ws))
  {
    var c := LandsOwn(r, ws);
    hide View, Continues, Work;
    var t, own := Landed(r, ws), Own(r, ws);
    assert forall w :: Own(t, w) == if w == ws then [] else Own(r, w);
    forall w
      ensures Apart(Own(t, w), t.local)
    {
      if w != ws { assert Apart(Own(r, w), r.local) && Apart(Own(r, w), own); }
    }
  }

  lemma MovedFromClear(s: State, p: nat)
    requires Sound(s) && Clear(s.repo) && p in s.procs
    ensures Clear(MovedFrom(s, p))
  {
    FetchView(s.repo);
    FetchedParts(s.repo);
    FetchClear(s.repo);
    hide View, Clear, Fetched, Onto, Continues;
    RebaseClear(Fetched(s.repo), s.procs[p].ws);
  }

  lemma StepClear(s: State, l: Label)
    requires Sound(s) && Clear(s.repo) && !Restores(s, l)
    ensures Clear(Step(s, l).repo)
  {
    var r := Step(s, l).repo;
    RepoStep(s, l);
    FetchView(s.repo);
    FetchedParts(s.repo);
    FetchClear(s.repo);
    if l.Checkout? {
      FewerClear(s.repo, l.ws, Line(s.repo.local, []));
    } else if l.Author? {
      WriteClear(s.repo, l.ws, l.issues);
    } else if l.Outside? {
      OutsideClear(s.repo, l.issue);
    } else if l.Push? {
      assert forall w :: Own(r, w) == Own(s.repo, w);
    } else if Rebases(l) && l.p in s.procs {
      hide Step, View, Clear, Fetched, Continues, Work, Destination;
      MovedFromView(s, l.p);
      MovedFromClear(s, l.p);
      RebaseClear(Fetched(s.repo), s.procs[l.p].ws);
      if l.Move? && Advances(s, l.p) {
        MovedFromContinues(s, l.p);
        LandClear(MovedFrom(s, l.p), s.procs[l.p].ws);
      }
    }
  }

  lemma RestoreClear(s: State, l: Label)
    requires Restores(s, l) && Tidy(s.procs[l.p].phase.before)
    ensures Clear(Step(s, l).repo) <==> !Reappears(s, l)
  {
    var b, t := s.procs[l.p].phase.before, Step(s, l).repo;
    assert t == Restored(s.repo, s.procs[l.p].phase);
    hide Step;
    assert forall w :: Own(t, w) == Own(b, w);
    hide Apart;
    assert Tidy(t);
  }

  /** Before a step of any process, with nothing in two places, it is so after the step if and only if the step does not
      bring a published commit back. */
  lemma OnceExactly(s: State, l: Label)
    requires Sound(s) && Once(s)
    ensures Once(Step(s, l)) <==> !Reappears(s, l)
  {
    var t := Step(s, l);
    if Restores(s, l) { RestoreClear(s, l); } else { StepClear(s, l); }
    forall p | p in t.procs && Captured(t.procs[p].phase)
      ensures Tidy(t.procs[p].phase.before)
    {
      CaptureStep(s, l, p);
      FetchClear(s.repo);
      hide Step, Fetched;
    }
    hide Step;
  }

  /** In every run no change is in two places, of main and origin on the one side and workspaces on the other, throughout
      if and only if no restore brings back a commit that has been pushed since. */
  lemma OnceRuns(ls: seq<Label>)
    ensures GoodThroughout(Step, Once, Start, ls) <==> NoBadStep(Step, Reappears, Start, ls)
  {
    StartSound();
    assert Once(Start) by { assert forall ws :: Own(Start.repo, ws) == []; }
    hide GoodThroughout, NoBadStep, Step, Sound, Once, Reappears;
    forall s, l | Sound(s)
      ensures Sound(Step(s, l)) && (Once(s) ==> (Once(Step(s, l)) <==> !Reappears(s, l)))
    {
      StepSound(s, l);
      if Once(s) { OnceExactly(s, l); }
    }
    GoodRuns(Step, Sound, Once, Reappears, Start, ls);
  }
}
