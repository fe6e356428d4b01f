/** What every run of the overlay history keeps, and where the module's own comments promise too much. */
module OverlayRuns {
  import opened Logs
  import opened Options
  import opened Overlay
  import opened Runs

  // --- Subsequences -------------------------------------------------------------

  ghost predicate Sub(a: seq<string>, b: seq<string>) {
    a == [] || (b != [] && ((a[|a| - 1] == b[|b| - 1] && Sub(a[..|a| - 1], b[..|b| - 1])) || Sub(a, b[..|b| - 1])))
  }

  lemma {:induction false} SubDrop(a: seq<string>, b: seq<string>)
    requires a != [] && Sub(a, b)
    ensures b != [] && Sub(a[..|a| - 1], b[..|b| - 1])
  {
    var b' := b[..|b| - 1];
    if !(a[|a| - 1] == b[|b| - 1] && Sub(a[..|a| - 1], b')) {
      SubDrop(a, b');
      var a' := a[..|a| - 1];
      assert Sub(a', b'[..|b'| - 1]);
      assert a' == [] || Sub(a', b');
    }
  }

  lemma {:induction false} SubRemove(a: seq<string>, b: seq<string>, i: nat)
    requires i < |a| && Sub(a, b)
    ensures Sub(a[..i] + a[i + 1..], b)
  {
    var c := a[..i] + a[i + 1..];
    var b' := b[..|b| - 1];
    if i == |a| - 1 {
      SubDrop(a, b);
      assert c == a[..|a| - 1];
      assert c == [] || Sub(c, b');
    } else if a[|a| - 1] == b[|b| - 1] && Sub(a[..|a| - 1], b') {
      SubRemove(a[..|a| - 1], b', i);
      assert c[..|c| - 1] == a[..|a| - 1][..i] + a[..|a| - 1][i + 1..];
    } else {
      SubRemove(a, b', i);
      assert c == [] || Sub(c, b');
    }
  }

  lemma {:induction false} SubAppend(a: seq<string>, b: seq<string>, c: seq<string>)
    requires Sub(a, b)
    ensures Sub(a + c, b + c)
  {
    if c == [] {
      assert a + c == a && b + c == b;
    } else {
      SubAppend(a, b, c[..|c| - 1]);
      assert (a + c)[..|a + c| - 1] == a + c[..|c| - 1];
      assert (b + c)[..|b + c| - 1] == b + c[..|c| - 1];
    }
  }

  lemma {:induction false} SubLength(a: seq<string>, b: seq<string>)
    requires Sub(a, b)
    ensures |a| <= |b| && (|a| == |b| ==> a == b)
  {
    if a != [] {
      if a[|a| - 1] == b[|b| - 1] && Sub(a[..|a| - 1], b[..|b| - 1]) {
        SubLength(a[..|a| - 1], b[..|b| - 1]);
        assert |a| == |b| ==> a == a[..|a| - 1] + [a[|a| - 1]] && b == b[..|b| - 1] + [b[|b| - 1]];
      } else {
        SubLength(a, b[..|b| - 1]);
      }
    }
  }

  // --- The invariant ----------------------------------------------------------------

  /** History entries whose overlay was closed out of order. */
  function Stale(s: Phone): int {
    |s.entries| - |s.stack| - s.ownPops
  }

  ghost predicate Bookkeeping(s: Phone) {
    && Stale(s) >= 0
    && (s.ownPops == 0 ==> s.deferred == [] && s.replacing == None)
    && (s.ownPops > 0 ==> s.traversals > 0 && !s.left)
    && (s.replacing.Some? ==> s.ownPops > 0 && |s.stack| == 1 && s.stack[0].id == s.replacing.value)
  }

  /** The entries that survive the owned pops carry, in order, the markers of the open overlays. */
  ghost predicate Marked(s: Phone)
    requires Stale(s) >= 0
  {
    s.replacing == None ==> Sub(Ids(s.stack), s.entries[..|s.entries| - s.ownPops])
  }

  ghost predicate Inv(s: Phone) {
    Bookkeeping(s) && Marked(s)
  }

  lemma IdsInit(es: seq<Entry>)
    requires es != []
    ensures Ids(es)[..|es| - 1] == Ids(es[..|es| - 1])
  {
  }

  lemma LastMarked(stack: seq<Entry>, entries: seq<string>)
    requires |stack| == 1 && entries != [] && entries[|entries| - 1] == stack[0].id
    ensures Sub(Ids(stack), entries)
  {
    assert Sub([], entries[..|entries| - 1]) && Ids(stack)[..0] == [];
  }

  lemma RefreshKeepsIds(es: seq<Entry>, e: Entry)
    requires Tracks(es, e.id)
    ensures Ids(Refresh(es, e)) == Ids(es)
  {
  }

  lemma OpenedKeeps(s: Phone, e: Entry)
    requires Inv(s) && !s.left
    ensures Inv(Opened(s, e)) && Stale(Opened(s, e)) == Stale(s)
  {
    hide Sub, Ids, Index, Reversed;
    var t := Opened(s, e);
    if s.ownPops == 0 {
      assert s.entries[..|s.entries| - s.ownPops] == s.entries;
      if Tracks(s.stack, e.id) {
        RefreshKeepsIds(s.stack, e);
      } else if |s.stack| <= 1 {
        LastMarked(t.stack, t.entries);
        assert t.entries[..|t.entries| - t.ownPops] == t.entries;
      }
    }
  }

  lemma OpenedNestedKeeps(s: Phone, e: Entry)
    requires Inv(s) && !s.left
    ensures Inv(OpenedNested(s, e)) && Stale(OpenedNested(s, e)) == Stale(s)
  {
    var t := OpenedNested(s, e);
    if s.ownPops > 0 || Tracks(s.stack, e.id) {
      assert Ids(t.stack) == Ids(s.stack);
    } else {
      assert s.entries[..|s.entries| - s.ownPops] == s.entries && t.entries[..|t.entries| - t.ownPops] == t.entries;
      SubAppend(Ids(s.stack), s.entries, [e.id]);
      assert Ids(t.stack) == Ids(s.stack) + [e.id];
    }
  }

  /** A UI close of an overlay that is open, activated and not the top one. */
  predicate OutOfOrder(s: Phone, id: string) {
    !Tracks(s.deferred, id) && Index(s.stack, id) < |s.stack| - 1
  }

  lemma RemoveMarked(stack: seq<Entry>, i: nat, kept: seq<string>)
    requires i < |stack| && Sub(Ids(stack), kept)
    ensures Sub(Ids(stack[..i] + stack[i + 1..]), kept)
    ensures i == |stack| - 1 ==> kept != [] && Sub(Ids(stack[..i] + stack[i + 1..]), kept[..|kept| - 1])
  {
    hide Sub;
    assert Ids(stack[..i] + stack[i + 1..]) == Ids(stack)[..i] + Ids(stack)[i + 1..];
    SubRemove(Ids(stack), kept, i);
    if i == |stack| - 1 {
      SubDrop(Ids(stack), kept);
      assert Ids(stack)[..i] + Ids(stack)[i + 1..] == Ids(stack)[..i];
    }
  }

  lemma ClosedKeeps(s: Phone, id: string)
    requires Inv(s) && !s.left
    ensures Inv(Closed(s, id)) && Stale(Closed(s, id)) == Stale(s) + (if OutOfOrder(s, id) then 1 else 0)
  {
    hide Sub, Ids;
    var t := Closed(s, id);
    var i := Index(s.stack, id);
    if !Tracks(s.deferred, id) && i < |s.stack| {
      var kept := s.entries[..|s.entries| - s.ownPops];
      if s.replacing == None {
        RemoveMarked(s.stack, i, kept);
        assert i == |s.stack| - 1 ==> kept[..|kept| - 1] == t.entries[..|t.entries| - t.ownPops];
      } else {
        NothingMarked(t.stack, t.entries[..|t.entries| - t.ownPops]);
      }
    }
  }

  lemma NothingMarked(stack: seq<Entry>, kept: seq<string>)
    requires stack == []
    ensures Sub(Ids(stack), kept)
  {
    assert Ids(stack) == [];
  }

  lemma AppendMarked(stack: seq<Entry>, more: seq<Entry>, entries: seq<string>)
    requires Sub(Ids(stack), entries)
    ensures Sub(Ids(stack + more), entries + Ids(more))
  {
    hide Sub;
    SubAppend(Ids(stack), entries, Ids(more));
    assert Ids(stack + more) == Ids(stack) + Ids(more);
  }

  lemma LastOwnedPopKeeps(s: Phone)
    requires Inv(s) && s.ownPops == 1
    ensures Inv(Traversed(s)) && Stale(Traversed(s)) == Stale(s)
  {
    hide Sub;
    var kept := s.entries[..|s.entries| - 1];
    var base := if s.replacing.Some? then SetLast(kept, s.replacing.value) else kept;
    if s.replacing.Some? { LastMarked(s.stack, base); }
    AppendMarked(s.stack, s.deferred, base);
    var t := Traversed(s);
    assert t.entries == base + Ids(s.deferred) && t.stack == s.stack + s.deferred && t.ownPops == 0;
    assert t.entries[..|t.entries| - t.ownPops] == t.entries;
  }

  lemma UserPopKeeps(s: Phone)
    requires Inv(s) && s.ownPops == 0 && s.traversals > 0 && s.entries != []
    ensures Inv(Traversed(s)) && Stale(Traversed(s)) == Stale(s) - (if s.stack == [] then 1 else 0)
  {
    hide Sub;
    var t := Traversed(s);
    assert s.entries[..|s.entries| - s.ownPops] == s.entries && t.entries[..|t.entries| - t.ownPops] == t.entries;
    if s.stack != [] {
      SubDrop(Ids(s.stack), s.entries);
      IdsInit(s.stack);
    } else {
      NothingMarked(t.stack, t.entries);
    }
  }

  lemma TraversedKeeps(s: Phone)
    requires Inv(s) && !s.left && s.traversals > 0
    ensures Inv(Traversed(s))
    ensures Stale(Traversed(s)) == Stale(s) - (if s.ownPops == 0 && s.stack == [] && s.entries != [] then 1 else 0)
  {
    hide Sub;
    var t := Traversed(s);
    if s.ownPops == 1 {
      LastOwnedPopKeeps(s);
    } else if s.ownPops == 0 && s.entries != [] {
      UserPopKeeps(s);
    } else {
      assert t.entries[..|t.entries| - t.ownPops] == s.entries[..|s.entries| - s.ownPops];
    }
  }

  /** How many entries a step strands, and whether it spends a stranded one. */
  function Strands(s: Phone, l: Label): nat {
    if !s.left && l.UiClose? && OutOfOrder(s, l.id) then 1 else 0
  }

  function Spends(s: Phone, l: Label): nat {
    if !s.left && l.TraversalDone? && s.traversals > 0 && s.ownPops == 0 && s.stack == [] && s.entries != [] then 1 else 0
  }

  lemma StepKeeps(s: Phone, l: Label)
    requires Inv(s)
    ensures Inv(Step(s, l)) && Stale(Step(s, l)) == Stale(s) + Strands(s, l) - Spends(s, l)
  {
    if !s.left {
      match l
      case Open(e) => OpenedKeeps(s, e.(nested := false));
      case OpenChild(e) => OpenedNestedKeeps(s, e.(nested := true));
      case UiClose(id) => ClosedKeeps(s, id);
      case Back =>
      case TraversalDone => if s.traversals > 0 { TraversedKeeps(s); }
    }
  }

  function TotalStranded(ls: seq<Label>): nat {
    if ls == [] then 0
    else TotalStranded(ls[..|ls| - 1]) + Strands(Run(Start, ls[..|ls| - 1]), ls[|ls| - 1])
  }

  function TotalSpent(ls: seq<Label>): nat {
    if ls == [] then 0
    else TotalSpent(ls[..|ls| - 1]) + Spends(Run(Start, ls[..|ls| - 1]), ls[|ls| - 1])
  }

  /** Every run: the bookkeeping holds, and entries without an overlay are out-of-order closes not yet backed over. */
  lemma {:induction false} EveryRunBooked(ls: seq<Label>)
    ensures Inv(Run(Start, ls))
    ensures Stale(Run(Start, ls)) == TotalStranded(ls) - TotalSpent(ls)
  {
    if ls == [] {
    } else {
      EveryRunBooked(ls[..|ls| - 1]);
      StepKeeps(Run(Start, ls[..|ls| - 1]), ls[|ls| - 1]);
    }
  }

  /** Whenever no pop is pending, the history and the stack of overlays agree entry by entry if and only if every
      stranded entry has been backed over. */
  lemma OneEntryPerOverlay(ls: seq<Label>)
    ensures var s := Run(Start, ls); s.ownPops == 0 ==> (s.entries == Ids(s.stack) <==> TotalStranded(ls) == TotalSpent(ls))
  {
    hide Sub, Run, TotalStranded, TotalSpent;
    EveryRunBooked(ls);
    var s := Run(Start, ls);
    if s.ownPops == 0 {
      assert s.entries[..|s.entries| - s.ownPops] == s.entries;
      SubLength(Ids(s.stack), s.entries);
    }
  }

  /** The step that leaves the app finds no overlay open, none waiting, and no entry of ours: every run, stranded entries or not. */
  lemma NeverLeavesWhileOpen(ls: seq<Label>, l: Label)
    requires !Run(Start, ls).left && Step(Run(Start, ls), l).left
    ensures var s := Run(Start, ls); s.stack == [] && s.deferred == [] && s.ownPops == 0 && s.entries == []
  {
    EveryRunBooked(ls);
  }

  // --- Traversals complete ---------------------------------------------------------------

  lemma RunTwo(s: Phone, ls: seq<Label>, a: Label, b: Label)
    ensures Run(s, ls + [a, b]) == Step(Step(Run(s, ls), a), b)
  {
    hide Step;
    FoldAllPush(Step, s, ls, a);
    FoldAllPush(Step, s, ls + [a], b);
    assert ls + [a] + [b] == ls + [a, b];
  }

  function Done(n: nat): seq<Label> {
    seq(n, _ => TraversalDone)
  }

  lemma DoneTwice(s: Phone, m: nat, n: nat)
    ensures Run(s, Done(m + n)) == Run(Run(s, Done(m)), Done(n))
  {
    hide Step, FoldAll;
    assert Done(m + n) == Done(m) + Done(n);
    FoldAllConcat(Step, s, Done(m), Done(n));
  }

  /** Completing the owned pops activates every deferred overlay, in order, above what is open, and closes nothing. */
  lemma {:induction false} Drains(s: Phone)
    requires Inv(s) && s.ownPops > 0
    ensures var t := Run(s, Done(s.ownPops));
            && Inv(t) && t.ownPops == 0 && t.stack == s.stack + s.deferred && t.deferred == []
            && t.closed == s.closed && t.traversals == s.traversals - 1 && !t.left && Stale(t) == Stale(s)
    decreases s.ownPops
  {
    TraversedKeeps(s);
    DoneTwice(s, 1, s.ownPops - 1);
    assert Done(1) == [TraversalDone];
    FoldAllOne(Step, s, TraversalDone);
    if s.ownPops > 1 { Drains(Step(s, TraversalDone)); } else { assert Done(0) == []; }
  }

  // --- Going back ------------------------------------------------------------------------

  /** The presses of Back that have not completed. */
  function UserBacks(s: Phone): int {
    s.traversals - if s.ownPops > 0 then 1 else 0
  }

  /** One press completes: leave from the app's own entry, else spend an entry and close the top overlay, if any. */
  lemma OnePress(s: Phone)
    requires Inv(s) && !s.left && s.ownPops == 0 && s.traversals > 0
    ensures var t := Step(s, TraversalDone);
            if s.entries == [] then t == s.(left := true, traversals := s.traversals - 1)
            else if s.stack == [] then t == s.(entries := s.entries[..|s.entries| - 1], traversals := s.traversals - 1)
            else t == s.(stack := s.stack[..|s.stack| - 1], entries := s.entries[..|s.entries| - 1],
                         traversals := s.traversals - 1, closed := s.closed + [s.stack[|s.stack| - 1]])
    ensures Inv(Step(s, TraversalDone))
  {
    hide Sub;
    StepKeeps(s, TraversalDone);
  }

  /** What k completed presses make of these overlays and stranded entries: the top k overlays are closed, top first,
      and the app is left exactly when k exceeds overlays and stranded entries together. */
  ghost predicate WentBack(all: seq<Entry>, stale: int, closed: seq<Entry>, k: nat, t: Phone) {
    && (t.left <==> k > |all| + stale)
    && t.stack == all[..if k < |all| then |all| - k else 0]
    && t.closed == closed + Reversed(all)[..if k < |all| then k else |all|]
  }

  lemma WentBackOneMore(all: seq<Entry>, closed: seq<Entry>, k: nat)
    requires 0 < k <= |all|
    ensures var before := all[..|all| - (k - 1)];
            before[..|before| - 1] == all[..|all| - k]
            && closed + Reversed(all)[..k - 1] + [before[|before| - 1]] == closed + Reversed(all)[..k]
  {
    hide Reversed;
    ReversedAt(all);
    assert Reversed(all)[..k] == Reversed(all)[..k - 1] + [all[|all| - k]];
  }

  lemma {:induction false} UserPops(s: Phone, k: nat)
    requires Inv(s) && !s.left && s.ownPops == 0 && k <= s.traversals
    ensures WentBack(s.stack, Stale(s), s.closed, k, Run(s, Done(k)))
    ensures k <= |s.stack| + Stale(s) ==>
            var t := Run(s, Done(k)); Inv(t) && t.ownPops == 0 && t.traversals == s.traversals - k && |t.entries| == |s.entries| - k
  {
    hide Step, Sub, Reversed, FoldAll;
    if k == 0 {
      assert s.stack[..|s.stack|] == s.stack && s.closed + Reversed(s.stack)[..0] == s.closed;
      RunNone(s);
    } else {
      UserPops(s, k - 1);
      var m := Run(s, Done(k - 1));
      assert Done(k) == Done(k - 1) + [TraversalDone];
      FoldAllPush(Step, s, Done(k - 1), TraversalDone);
      if m.left {
        LeftStays(m);
      } else {
        OnePress(m);
        if k <= |s.stack| { WentBackOneMore(s.stack, s.closed, k); }
      }
    }
  }

  lemma RunNone(s: Phone)
    ensures Run(s, Done(0)) == s
  {
    assert Done(0) == [];
  }

  lemma LeftStays(s: Phone)
    requires s.left
    ensures Step(s, TraversalDone) == s
  {
  }

  lemma {:induction false} ReversedAt(es: seq<Entry>)
    ensures |Reversed(es)| == |es| && forall i :: 0 <= i < |es| ==> Reversed(es)[i] == es[|es| - 1 - i]
  {
    if es != [] { ReversedAt(es[..|es| - 1]); }
  }

  /**
   From every state a run can reach, with b presses of Back pending beside whatever the app itself traverses: once all
   have completed, the top b of the overlays open and waiting are closed, and the app is left if and only if b exceeds
   those and the stranded entries.
   */
  lemma BacksToLeave(s: Phone)
    requires Inv(s) && !s.left
    ensures UserBacks(s) >= 0
    ensures WentBack(s.stack + s.deferred, Stale(s), s.closed, UserBacks(s), Run(s, Done(s.ownPops + UserBacks(s))))
  {
    hide Step, Sub, FoldAll, Reversed;
    var b := UserBacks(s);
    if s.ownPops == 0 {
      UserPops(s, b);
      assert s.stack + s.deferred == s.stack;
    } else {
      Drains(s);
      var t := Run(s, Done(s.ownPops));
      UserPops(t, b);
      DoneTwice(s, s.ownPops, b);
    }
  }

  /** In particular one press closes exactly the top overlay, even while an owned traversal is under way. */
  lemma BackClosesTop(s: Phone)
    requires Inv(s) && !s.left && UserBacks(s) == 0 && s.stack + s.deferred != []
    ensures var all := s.stack + s.deferred;
            var t := Run(Step(s, Back), Done(s.ownPops + 1));
            !t.left && t.stack == all[..|all| - 1] && t.closed == s.closed + [all[|all| - 1]]
  {
    var t := Step(s, Back);
    assert t == s.(traversals := s.traversals + 1);
    StepKeeps(s, Back);
    hide Step, Sub, FoldAll, Reversed;
    BacksToLeave(t);
    ReversedAt(s.stack + s.deferred);
  }

  ghost predicate Settled(s: Phone) {
    Inv(s) && !s.left && s.ownPops == 0 && s.traversals == 0
  }

  lemma TwoStranded(x: Entry, y: Entry, z: Entry)
    requires x.id != y.id && x.id != z.id && y.id != z.id && !x.nested && y.nested && z.nested
    ensures var s := Start.(stack := [x, y, z], entries := [x.id, y.id, z.id]);
            && Step(Step(Step(Start, Open(x)), OpenChild(y)), OpenChild(z)) == s
            && Step(Step(s, UiClose(x.id)), UiClose(y.id)) == s.(stack := [z])
  {
    var s := Start.(stack := [x, y, z], entries := [x.id, y.id, z.id]);
    assert Step(Start, Open(x)) == Start.(stack := [x], entries := [x.id]);
    assert Step(s, UiClose(x.id)) == s.(stack := [y, z]) by { assert [x, y, z][..0] + [x, y, z][1..] == [y, z]; }
    assert [y, z][..0] + [y, z][1..] == [z];
  }

  /** Two out-of-order closes: one overlay is open, yet three presses of Back still do not leave the app. */
  lemma MoreThanOneExtraBack(a: Entry, b: Entry, c: Entry)
    requires a.id != b.id && a.id != c.id && b.id != c.id && !a.nested && b.nested && c.nested
    ensures var s := Run(Start, [Open(a), OpenChild(b), OpenChild(c), UiClose(a.id), UiClose(b.id)]);
            Settled(s) && |s.stack| == 1 && Stale(s) == 2 && !Run(s.(traversals := 3), Done(3)).left
  {
    hide Step, Sub, Run;
    var ls := [Open(a), OpenChild(b), OpenChild(c), UiClose(a.id), UiClose(b.id)];
    TwoStranded(a, b, c);
    RunFive(ls);
    EveryRunBooked(ls);
    UserPops(Run(Start, ls).(traversals := 3), 3);
  }

  lemma RunFive(ls: seq<Label>)
    requires |ls| == 5
    ensures Run(Start, ls) == Step(Step(Step(Step(Step(Start, ls[0]), ls[1]), ls[2]), ls[3]), ls[4])
  {
    hide Step;
    RunTwo(Start, [], ls[0], ls[1]);
    assert ls[..2] == [] + [ls[0], ls[1]];
    RunTwo(Start, ls[..2], ls[2], ls[3]);
    assert ls[..4] == ls[..2] + [ls[2], ls[3]];
    FoldAllPush(Step, Start, ls[..4], ls[4]);
    assert ls == ls[..4] + [ls[4]];
  }

  // --- Peers exclude each other, except ------------------------------------------------------

  function Peers(es: seq<Entry>): nat {
    if es == [] then 0 else Peers(es[..|es| - 1]) + if es[|es| - 1].nested then 0 else 1
  }

  lemma {:induction false} PeersConcat(a: seq<Entry>, b: seq<Entry>)
    ensures Peers(a + b) == Peers(a) + Peers(b)
  {
    if b == [] {
      assert a + b == a;
    } else {
      PeersConcat(a, b[..|b| - 1]);
      assert (a + b)[..|a + b| - 1] == a + b[..|b| - 1];
    }
  }

  lemma PeersSplit(es: seq<Entry>, i: nat)
    requires i < |es|
    ensures Peers(es) == Peers(es[..i]) + (if es[i].nested then 0 else 1) + Peers(es[i + 1..])
  {
    assert es == es[..i] + ([es[i]] + es[i + 1..]);
    PeersConcat(es[..i], [es[i]] + es[i + 1..]);
    PeersConcat([es[i]], es[i + 1..]);
  }

  lemma PeersRefresh(es: seq<Entry>, e: Entry)
    requires Tracks(es, e.id)
    ensures Peers(Refresh(es, e)) == Peers(es)
  {
    var i := Index(es, e.id);
    PeersSplit(es, i);
    PeersSplit(Refresh(es, e), i);
    assert Refresh(es, e)[..i] == es[..i] && Refresh(es, e)[i + 1..] == es[i + 1..];
  }

  /** Sessions and context views showing or waiting to show. */
  function Showing(s: Phone): nat {
    Peers(s.stack) + Peers(s.deferred)
  }

  /** A peer is requested while our own Back is under way, over a view that stays open. */
  predicate Collides(s: Phone, l: Label) {
    !s.left && l.Open? && s.ownPops > 0 && s.replacing == None && !Tracks(s.deferred, l.e.id) && Peers(s.stack) > 0
  }

  lemma OpenedShowing(s: Phone, e: Entry)
    requires Inv(s) && Showing(s) <= 1 && !e.nested && !s.left
    ensures Showing(Opened(s, e)) <= 1 <==> !Collides(s, Open(e))
  {
    assert Peers([e]) == Peers([e][..0]) + 1 == 1;
    if s.ownPops > 0 {
      if s.replacing == None && Tracks(s.deferred, e.id) { PeersRefresh(s.deferred, e); }
    } else if Tracks(s.stack, e.id) {
      PeersRefresh(s.stack, e);
    }
  }

  /** One step keeps peers exclusive if and only if it is not a colliding open. */
  lemma PeersExclude(s: Phone, l: Label)
    requires Inv(s) && Showing(s) <= 1
    ensures Showing(Step(s, l)) <= 1 <==> !Collides(s, l)
  {
    if !s.left {
      match l
      case Open(e) => OpenedShowing(s, e.(nested := false));
      case OpenChild(e) =>
        var e' := e.(nested := true);
        if s.ownPops > 0 {
          if Tracks(s.deferred, e.id) { PeersRefresh(s.deferred, e'); } else { PeersConcat(s.deferred, [e']); }
        } else if Tracks(s.stack, e.id) {
          PeersRefresh(s.stack, e');
        } else {
          PeersConcat(s.stack, [e']);
        }
      case UiClose(id) => ClosedShowing(s, id);
      case Back =>
      case TraversalDone => if s.traversals > 0 { PeersConcat(s.stack, s.deferred); }
    }
  }

  lemma PeersRemove(es: seq<Entry>, i: nat)
    requires i < |es|
    ensures Peers(es[..i] + es[i + 1..]) <= Peers(es)
  {
    PeersSplit(es, i);
    PeersConcat(es[..i], es[i + 1..]);
  }

  lemma ClosedShowing(s: Phone, id: string)
    ensures Showing(Closed(s, id)) <= Showing(s)
  {
    hide Peers;
    var d, i := Index(s.deferred, id), Index(s.stack, id);
    if d < |s.deferred| {
      PeersRemove(s.deferred, d);
    } else if i < |s.stack| {
      PeersRemove(s.stack, i);
    }
  }

  ghost predicate OnePeer(s: Phone) {
    Showing(s) <= 1
  }

  lemma CollisionsExactly()
    ensures Keeps(Step, Inv) && BadExactly(Step, Inv, OnePeer, Collides)
  {
    hide Step, Collides, Inv, Showing;
    forall s, l | Inv(s)
      ensures Inv(Step(s, l))
    {
      StepKeeps(s, l);
    }
    forall s, l | Inv(s) && OnePeer(s)
      ensures OnePeer(Step(s, l)) <==> !Collides(s, l)
    {
      PeersExclude(s, l);
    }
  }

  /** A run shows at most one peer throughout if and only if none of its opens collides. */
  lemma ExclusiveRuns(ls: seq<Label>)
    ensures GoodThroughout(Step, OnePeer, Start, ls) <==> NoBadStep(Step, Collides, Start, ls)
  {
    EveryRunBooked([]);
    hide GoodThroughout, NoBadStep, Step, Collides, Inv, Keeps, BadExactly;
    CollisionsExactly();
    GoodRuns(Step, Inv, OnePeer, Collides, Start, ls);
  }

  /** The failing family: a nested sheet is closed and the other view is opened before that Back completes. */
  lemma TwoPeersOpen(context: Entry, sheet: Entry, sessions: Entry)
    requires context.id != sheet.id && context.id != sessions.id && sheet.id != sessions.id
    ensures var s := Run(Start, [Open(context), OpenChild(sheet), UiClose(sheet.id), Open(sessions), TraversalDone]);
            s.stack == [context.(nested := false), sessions.(nested := false)] && s.closed == []
  {
    var ls := [Open(context), OpenChild(sheet), UiClose(sheet.id), Open(sessions), TraversalDone];
    var x, y, z := context.(nested := false), sheet.(nested := true), sessions.(nested := false);
    var s2 := Start.(stack := [x, y], entries := [x.id, y.id]);
    var s3 := s2.(stack := [x], ownPops := 1, traversals := 1);
    assert Step(Step(Start, Open(context)), OpenChild(sheet)) == s2;
    assert Step(s2, UiClose(sheet.id)) == s3 by {
      assert Index([x, y], y.id) == 1 && [x, y][..1] + [x, y][2..] == [x];
    }
    assert Step(s3, Open(sessions)) == s3.(deferred := [z]) by { assert Reversed([]) == []; }
    RunFive(ls);
  }
}
