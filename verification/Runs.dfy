/** Runs of a state machine, as folds over the labels of their steps, and when a run is good throughout. */
module Runs {
  import opened Logs

  /** No step of the run is bad in the state it is taken from. */
  ghost predicate NoBadStep<S, L>(step: (S, L) -> S, bad: (S, L) -> bool, start: S, ls: seq<L>) {
    forall n {:trigger ls[..n]} :: 0 <= n < |ls| ==> !bad(FoldAll(step, start, ls[..n]), ls[n])
  }

  /** Every state the run passes through is good. */
  ghost predicate GoodThroughout<S, L>(step: (S, L) -> S, good: S -> bool, start: S, ls: seq<L>) {
    forall n {:trigger ls[..n]} :: 0 <= n <= |ls| ==> good(FoldAll(step, start, ls[..n]))
  }

  lemma NoBadStepPush<S, L>(step: (S, L) -> S, bad: (S, L) -> bool, start: S, ls: seq<L>)
    requires ls != []
    ensures var init := ls[..|ls| - 1];
            NoBadStep(step, bad, start, ls) <==>
            NoBadStep(step, bad, start, init) && !bad(FoldAll(step, start, init), ls[|ls| - 1])
  {
    hide FoldAll;
    var init := ls[..|ls| - 1];
    assert forall n {:trigger ls[..n]} {:trigger init[..n]} :: 0 <= n <= |init| ==> init[..n] == ls[..n];
    if NoBadStep(step, bad, start, ls) {
      assert forall n {:trigger init[..n]} :: 0 <= n < |init| ==> ls[..n] == init[..n] && ls[n] == init[n];
    }
  }

  lemma GoodThroughoutPush<S, L>(step: (S, L) -> S, good: S -> bool, start: S, ls: seq<L>)
    requires ls != []
    ensures var init := ls[..|ls| - 1];
            GoodThroughout(step, good, start, ls) <==>
            GoodThroughout(step, good, start, init) && good(FoldAll(step, start, ls))
  {
    hide FoldAll;
    var init := ls[..|ls| - 1];
    assert forall n {:trigger ls[..n]} {:trigger init[..n]} :: 0 <= n <= |init| ==> init[..n] == ls[..n];
    assert ls[..|ls|] == ls;
    if GoodThroughout(step, good, start, ls) {
      assert forall n {:trigger init[..n]} :: 0 <= n <= |init| ==> ls[..n] == init[..n];
    }
  }

  lemma GoodAtEnd<S, L>(step: (S, L) -> S, good: S -> bool, start: S, ls: seq<L>)
    requires GoodThroughout(step, good, start, ls)
    ensures good(FoldAll(step, start, ls))
  {
    assert ls[..|ls|] == ls;
  }

  ghost predicate Keeps<S(!new), L(!new)>(step: (S, L) -> S, inv: S -> bool) {
    forall s, l :: inv(s) ==> inv(step(s, l))
  }

  /** From good states, exactly the bad steps lead to states that are not good. */
  ghost predicate BadExactly<S(!new), L(!new)>(step: (S, L) -> S, inv: S -> bool, good: S -> bool, bad: (S, L) -> bool) {
    forall s, l :: inv(s) && good(s) ==> (good(step(s, l)) <==> !bad(s, l))
  }

  lemma {:induction false} Kept<S(!new), L(!new)>(step: (S, L) -> S, inv: S -> bool, start: S, ls: seq<L>)
    requires inv(start) && Keeps(step, inv)
    ensures inv(FoldAll(step, start, ls))
  {
    if ls != [] { Kept(step, inv, start, ls[..|ls| - 1]); }
  }

  /** A run is good throughout if and only if it has no bad step. */
  lemma {:induction false} GoodRuns<S(!new), L(!new)>(
    step: (S, L) -> S, inv: S -> bool, good: S -> bool, bad: (S, L) -> bool, start: S, ls: seq<L>)
    requires inv(start) && good(start) && Keeps(step, inv) && BadExactly(step, inv, good, bad)
    ensures GoodThroughout(step, good, start, ls) <==> NoBadStep(step, bad, start, ls)
  {
    if ls != [] {
      hide GoodThroughout, NoBadStep;
      var init := ls[..|ls| - 1];
      GoodRuns(step, inv, good, bad, start, init);
      NoBadStepPush(step, bad, start, ls);
      GoodThroughoutPush(step, good, start, ls);
      Kept(step, inv, start, init);
      if GoodThroughout(step, good, start, init) { GoodAtEnd(step, good, start, init); }
    }
  }
}
