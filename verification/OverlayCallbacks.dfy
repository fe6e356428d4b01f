/** No overlay disappears silently: whatever was opened is open, waiting, was closed in the UI, or had its callback invoked. */
module OverlayCallbacks {
  import opened Options
  import opened Overlay
  import opened OverlayRuns

  ghost function Count(es: seq<Entry>): multiset<string> {
    multiset(Ids(es))
  }

  lemma CountConcat(a: seq<Entry>, b: seq<Entry>)
    ensures Count(a + b) == Count(a) + Count(b)
  {
    assert Ids(a + b) == Ids(a) + Ids(b);
  }

  lemma CountNone()
    ensures Count([]) == multiset{}
  {
    assert Ids([]) == [];
  }

  lemma CountOne(e: Entry)
    ensures Count([e]) == multiset{e.id}
  {
    assert Ids([e]) == [e.id];
  }

  lemma {:induction false} CountReversed(es: seq<Entry>)
    ensures Count(Reversed(es)) == Count(es)
  {
    if es != [] {
      var init, last := es[..|es| - 1], es[|es| - 1];
      assert es == init + [last];
      CountReversed(init);
      CountConcat([last], Reversed(init));
      CountConcat(init, [last]);
    }
  }

  lemma CountRemove(es: seq<Entry>, i: nat)
    requires i < |es|
    ensures Count(es) == Count(es[..i] + es[i + 1..]) + multiset{es[i].id}
  {
    assert es == es[..i] + ([es[i]] + es[i + 1..]);
    CountConcat(es[..i], [es[i]] + es[i + 1..]);
    CountConcat([es[i]], es[i + 1..]);
    CountConcat(es[..i], es[i + 1..]);
    CountOne(es[i]);
  }

  lemma CountRefresh(es: seq<Entry>, e: Entry)
    requires Tracks(es, e.id)
    ensures Count(Refresh(es, e)) == Count(es)
  {
    assert Ids(Refresh(es, e)) == Ids(es);
  }

  /** Open, waiting, or closed through its callback. */
  ghost function Accounted(s: Phone): multiset<string> {
    Count(s.stack) + Count(s.deferred) + Count(s.closed)
  }

  /** The overlay a step starts to track; re-opening a tracked one starts nothing. */
  ghost function Starts(s: Phone, l: Label): multiset<string> {
    match l
    case Open(e) =>
      if s.left || Tracks(if s.ownPops > 0 && s.replacing == None then s.deferred else s.stack, e.id) then multiset{}
      else multiset{e.id}
    case OpenChild(e) =>
      if s.left || Tracks(if s.ownPops > 0 then s.deferred else s.stack, e.id) then multiset{} else multiset{e.id}
    case _ => multiset{}
  }

  /** The overlay a step closes in the UI. */
  ghost function Ends(s: Phone, l: Label): multiset<string> {
    if !s.left && l.UiClose? && (Tracks(s.deferred, l.id) || Tracks(s.stack, l.id)) then multiset{l.id} else multiset{}
  }

  lemma ReplacedAccounts(s: Phone, e: Entry)
    requires Bookkeeping(s) && !s.left && s.ownPops > 0 && s.replacing.Some?
    ensures Accounted(Opened(s, e)) == Accounted(s) + Starts(s, Open(e))
  {
    var x := s.stack[0];
    assert s.stack == [x];
    hide Count, Reversed;
    CountOne(e);
    CountReversed(s.deferred);
    CountNone();
    CountOne(x);
    CountOne(x.(close := e.close));
    CountConcat(s.closed + Reversed(s.deferred), [x]);
    CountConcat(s.closed, Reversed(s.deferred));
  }

  lemma DeferredAccounts(s: Phone, e: Entry)
    requires Bookkeeping(s) && !s.left && s.ownPops > 0 && s.replacing == None
    ensures Accounted(Opened(s, e)) == Accounted(s) + Starts(s, Open(e))
  {
    hide Count, Reversed, Index;
    CountOne(e);
    CountReversed(s.deferred);
    if Tracks(s.deferred, e.id) { CountRefresh(s.deferred, e); }
    CountConcat(s.closed, Reversed(s.deferred));
  }

  lemma DirectAccounts(s: Phone, e: Entry)
    requires !s.left && s.ownPops == 0
    ensures Accounted(Opened(s, e)) == Accounted(s) + Starts(s, Open(e))
  {
    if |s.stack| == 1 { assert Reversed(s.stack) == [s.stack[0]] by { assert Reversed(s.stack[..0]) == []; } }
    hide Count, Reversed, Index;
    CountOne(e);
    CountReversed(s.stack);
    CountNone();
    if Tracks(s.stack, e.id) { CountRefresh(s.stack, e); }
    CountConcat(s.closed, Reversed(s.stack));
  }

  lemma OpenedAccounts(s: Phone, e: Entry)
    requires Inv(s) && !s.left
    ensures Accounted(Opened(s, e)) == Accounted(s) + Starts(s, Open(e))
  {
    hide Accounted, Starts, Opened;
    if s.ownPops == 0 { DirectAccounts(s, e); } else if s.replacing.Some? { ReplacedAccounts(s, e); } else { DeferredAccounts(s, e); }
  }

  lemma OpenedNestedAccounts(s: Phone, e: Entry)
    requires !s.left
    ensures Accounted(OpenedNested(s, e)) == Accounted(s) + Starts(s, OpenChild(e))
  {
    hide Count;
    CountOne(e);
    var es := if s.ownPops > 0 then s.deferred else s.stack;
    if Tracks(es, e.id) { CountRefresh(es, e); } else { CountConcat(es, [e]); }
  }

  lemma ClosedAccounts(s: Phone, id: string)
    requires !s.left
    ensures Accounted(Closed(s, id)) + Ends(s, UiClose(id)) == Accounted(s)
  {
    hide Count;
    var d, i := Index(s.deferred, id), Index(s.stack, id);
    if d < |s.deferred| { CountRemove(s.deferred, d); } else if i < |s.stack| { CountRemove(s.stack, i); }
  }

  lemma TraversedAccounts(s: Phone)
    requires Inv(s) && s.traversals > 0
    ensures Accounted(Traversed(s)) == Accounted(s)
  {
    hide Count, Sub;
    CountConcat(s.stack, s.deferred);
    CountNone();
    if s.stack != [] {
      var init, top := s.stack[..|s.stack| - 1], s.stack[|s.stack| - 1];
      assert s.stack == init + [top];
      CountConcat(init, [top]);
      CountConcat(s.closed, [top]);
    }
  }

  lemma StepAccounts(s: Phone, l: Label)
    requires Inv(s)
    ensures Accounted(Step(s, l)) + Ends(s, l) == Accounted(s) + Starts(s, l)
  {
    hide Count, Sub;
    if !s.left {
      match l
      case Open(e) => OpenedAccounts(s, e.(nested := false));
      case OpenChild(e) => OpenedNestedAccounts(s, e.(nested := true));
      case UiClose(id) => ClosedAccounts(s, id);
      case Back =>
      case TraversalDone => if s.traversals > 0 { TraversedAccounts(s); }
    }
  }

  ghost function TotalStarted(ls: seq<Label>): multiset<string> {
    if ls == [] then multiset{} else TotalStarted(ls[..|ls| - 1]) + Starts(Run(Start, ls[..|ls| - 1]), ls[|ls| - 1])
  }

  ghost function TotalEnded(ls: seq<Label>): multiset<string> {
    if ls == [] then multiset{} else TotalEnded(ls[..|ls| - 1]) + Ends(Run(Start, ls[..|ls| - 1]), ls[|ls| - 1])
  }

  lemma Balance(before: multiset<string>, after: multiset<string>, start: multiset<string>, end: multiset<string>,
                started: multiset<string>, ended: multiset<string>)
    requires after + end == before + start && before + ended == started
    ensures after + (ended + end) == started + start
  {
    assert after + (ended + end) == after + end + ended == before + start + ended == before + ended + start;
  }

  /** Conservation over every run: overlays tracked = open + waiting + closed by callback + closed in the UI. */
  lemma {:induction false} EveryRunAccounts(ls: seq<Label>)
    ensures Accounted(Run(Start, ls)) + TotalEnded(ls) == TotalStarted(ls)
  {
    if ls == [] {
      CountNone();
    } else {
      hide Accounted, Step, Starts, Ends, Inv;
      var init, l := ls[..|ls| - 1], ls[|ls| - 1];
      var s := Run(Start, init);
      EveryRunAccounts(init);
      EveryRunBooked(init);
      StepAccounts(s, l);
      Balance(Accounted(s), Accounted(Step(s, l)), Starts(s, l), Ends(s, l), TotalStarted(init), TotalEnded(init));
    }
  }

  // --- Which overlays, with which callbacks, in which order ---------------------------------------------

  /** Open and waiting overlays, bottom first. */
  function All(s: Phone): seq<Entry> {
    s.stack + s.deferred
  }

  /** Where an opening looks for the overlay it may only have to refresh. */
  predicate Reopens(s: Phone, e: Entry, child: bool) {
    Tracks(if s.ownPops > 0 && (child || s.replacing == None) then s.deferred else s.stack, e.id)
  }

  /** The same overlays, but one of this id has the new callback. */
  ghost predicate Refreshed(before: seq<Entry>, after: seq<Entry>, e: Entry) {
    exists i :: 0 <= i < |before| && before[i].id == e.id && after == before[i := before[i].(close := e.close)]
  }

  /** `gone` are the entries of `all`, the last one first. */
  predicate TopFirst(gone: seq<Entry>, all: seq<Entry>) {
    |gone| == |all| && forall i :: 0 <= i < |all| ==> gone[i] == all[|all| - 1 - i]
  }

  /** How many of the open and waiting overlays a new view leaves in place: those that stay while an owned Back is under way. */
  function Spared(s: Phone): nat {
    if s.ownPops > 0 && s.replacing == None then |s.stack| else 0
  }

  lemma RefreshedIn(a: seq<Entry>, b: seq<Entry>, e: Entry)
    requires Tracks(a, e.id)
    ensures Refreshed(a + b, Refresh(a, e) + b, e) && Refreshed(b + a, b + Refresh(a, e), e)
  {
    var i := Index(a, e.id);
    hide Index;
    assert (a + b)[i] == a[i] && (b + a)[|b| + i] == a[i];
    assert Refresh(a, e) + b == (a + b)[i := a[i].(close := e.close)];
    assert b + Refresh(a, e) == (b + a)[|b| + i := a[i].(close := e.close)];
  }

  /** Opening a view that is tracked gives it the new callback and changes nothing else. */
  lemma ReopenRefreshes(s: Phone, e: Entry, child: bool)
    requires Inv(s) && !s.left && Reopens(s, e, child)
    ensures var t := Step(s, if child then OpenChild(e) else Open(e));
            Refreshed(All(s), All(t), e) && t == s.(stack := t.stack, deferred := t.deferred)
  {
    if s.ownPops > 0 && (child || s.replacing == None) {
      RefreshedIn(s.deferred, s.stack, e);
    } else {
      RefreshedIn(s.stack, s.deferred, e);
    }
    hide Sub;
  }

  lemma ReversedTopFirst(closed: seq<Entry>, es: seq<Entry>)
    ensures TopFirst((closed + Reversed(es))[|closed|..], es)
  {
    ReversedAt(es);
    hide Reversed;
  }

  /** What opening another view does to all the overlays and to the callbacks invoked. */
  lemma OpenedAll(s: Phone, e: Entry)
    requires Bookkeeping(s) && !s.left && !Reopens(s, e, false)
    ensures var t, n := Opened(s, e), Spared(s);
            n <= |All(s)| && All(t) == All(s)[..n] + [e] && t.closed == s.closed + Reversed(All(s)[n..])
  {
    var n := Spared(s);
    if s.ownPops > 0 && s.replacing == None {
      assert All(s)[..n] == s.stack && All(s)[n..] == s.deferred;
    } else {
      assert All(s)[n..] == All(s);
      if s.ownPops > 0 {
        ReversedPush(s.stack[0], s.deferred);
        assert s.stack == [s.stack[0]];
      } else {
        assert All(s) == s.stack;
        if |s.stack| == 1 { assert Reversed(s.stack[..0]) == []; }
      }
    }
    hide Index;
  }

  lemma {:induction false} ReversedPush(x: Entry, es: seq<Entry>)
    ensures Reversed([x] + es) == Reversed(es) + [x]
  {
    if es == [] {
      assert [x] + es == [x] && Reversed([x][..0]) == [];
    } else {
      var init, last := es[..|es| - 1], es[|es| - 1];
      assert ([x] + es)[..|es|] == [x] + init;
      ReversedPush(x, init);
    }
  }

  /** Opening another view closes, top first and through their callbacks, all overlays but those that stay for an owned
      Back, and puts the new one on top of what stays. */
  lemma OpenDisplaces(s: Phone, e: Entry)
    requires Inv(s) && !s.left && !Reopens(s, e, false)
    ensures var t, n := Step(s, Open(e)), Spared(s);
            && n <= |All(s)| && All(t) == All(s)[..n] + [Entry(e.id, e.close, false)]
            && s.closed <= t.closed && TopFirst(t.closed[|s.closed|..], All(s)[n..])
  {
    OpenedAll(s, e.(nested := false));
    hide Opened, Reopens, Reversed, All;
    ReversedTopFirst(s.closed, All(s)[Spared(s)..]);
  }

  /** Opening a child puts it on top and closes nothing. */
  lemma ChildOnTop(s: Phone, e: Entry)
    requires Inv(s) && !s.left && !Reopens(s, e, true)
    ensures var t := Step(s, OpenChild(e)); All(t) == All(s) + [Entry(e.id, e.close, true)] && t.closed == s.closed
  {
    hide Sub, Index;
  }

  /** Closing in the UI takes away one overlay of that id, if there is one, and invokes no callback. */
  lemma UiCloseRemoves(s: Phone, id: string)
    requires !s.left
    ensures var t := Step(s, UiClose(id));
            && t.closed == s.closed
            && (if Tracks(s.deferred, id) || Tracks(s.stack, id)
                then exists i :: 0 <= i < |All(s)| && All(s)[i].id == id && All(t) == All(s)[..i] + All(s)[i + 1..]
                else t == s)
  {
    var d, i, t := Index(s.deferred, id), Index(s.stack, id), Step(s, UiClose(id));
    hide Index;
    if d < |s.deferred| {
      var k := |s.stack| + d;
      assert All(s)[k].id == id && All(t) == All(s)[..k] + All(s)[k + 1..];
    } else if i < |s.stack| {
      assert All(s)[i].id == id && All(t) == All(s)[..i] + All(s)[i + 1..];
    }
  }
}
