/**
 Dispatching an event over the live set of its listeners (the window mock in test-setup.ts:36-79). Handlers may add
 and remove listeners while the loop runs, and the loop sees it. The n-th handler call of a dispatch performs the
 registry operations acts(n), whatever they are.
 */
module Listeners {
  import opened Slots

  type Registry<L> = map<string, seq<Slot<L, ()>>>

  datatype Act<L> = Add(kind: string, listener: L) | Remove(kind: string, listener: L)

  function At<L>(m: Registry<L>, kind: string): seq<Slot<L, ()>> {
    if kind in m then m[kind] else []
  }

  function Perform<L(==)>(m: Registry<L>, a: Act<L>): Registry<L> {
    match a
    case Add(kind, l) => m[kind := Put(At(m, kind), l, ())]
    case Remove(kind, l) => if kind in m then m[kind := Delete(m[kind], l)] else m
  }

  function PerformAll<L(==)>(m: Registry<L>, acts: seq<Act<L>>): Registry<L> {
    if acts == [] then m else Perform(PerformAll(m, acts[..|acts| - 1]), acts[|acts| - 1])
  }

  /** No handler call from number `bound` on adds a listener: the additions of the dispatch are finite in number. */
  ghost predicate AddsEnd<L(!new)>(acts: nat -> seq<Act<L>>, bound: nat) {
    forall n, a :: n >= bound && a in acts(n) ==> a.Remove?
  }

  // --- Slots only ever empty ------------------------------------------------------------------

  /** Every slot of a is in b, with the same listener or emptied. */
  ghost predicate Ages<L>(a: seq<Slot<L, ()>>, b: seq<Slot<L, ()>>) {
    |a| <= |b| && forall i :: 0 <= i < |a| ==> b[i] == a[i] || b[i] == Gone
  }

  ghost predicate AllUnique<L>(m: Registry<L>) {
    forall kind :: kind in m ==> Unique(m[kind])
  }

  lemma PerformAges<L>(m: Registry<L>, a: Act<L>, kind: string)
    requires AllUnique(m)
    ensures AllUnique(Perform(m, a)) && Ages(At(m, kind), At(Perform(m, a), kind))
    ensures a.Remove? ==> |At(Perform(m, a), kind)| == |At(m, kind)|
  {
    if a.Add? {
      var es, i := At(m, a.kind), Find(At(m, a.kind), a.listener);
      assert i < |es| ==> es[i].value == () && es[i] == Kept(a.listener, ());
      PutUnique(es, a.listener, ());
    } else if a.kind in m { DeleteUnique(m[a.kind], a.listener); }
  }

  lemma {:induction false} PerformAllAges<L>(m: Registry<L>, acts: seq<Act<L>>, kind: string)
    requires AllUnique(m)
    ensures AllUnique(PerformAll(m, acts)) && Ages(At(m, kind), At(PerformAll(m, acts), kind))
    ensures (forall a :: a in acts ==> a.Remove?) ==> |At(PerformAll(m, acts), kind)| == |At(m, kind)|
  {
    if acts != [] {
      PerformAllAges(m, acts[..|acts| - 1], kind);
      PerformAges(PerformAll(m, acts[..|acts| - 1]), acts[|acts| - 1], kind);
    }
  }

  // --- The dispatch loop ------------------------------------------------------------------------

  datatype Outcome<L> = Outcome(registry: Registry<L>, found: seq<Slot<L, ()>>)

  /**
   The loop from slot i on, after `calls` handler calls: the registry it ends with, and what it found in each slot
   when it got there. A listener found is a listener called.
   */
  ghost function Walk<L(!new)>(m: Registry<L>, kind: string, i: nat, calls: nat, acts: nat -> seq<Act<L>>, bound: nat): Outcome<L>
    requires AllUnique(m) && AddsEnd(acts, bound)
    decreases if calls < bound then bound - calls else 0, |At(m, kind)| - i
  {
    if i >= |At(m, kind)| then Outcome(m, [])
    else if At(m, kind)[i].Gone? then
      var r := Walk(m, kind, i + 1, calls, acts, bound);
      Outcome(r.registry, [Gone] + r.found)
    else
      var m' := PerformAll(m, acts(calls));
      PerformAllAges(m, acts(calls), kind);
      var r := Walk(m', kind, i + 1, calls + 1, acts, bound);
      Outcome(r.registry, [At(m, kind)[i]] + r.found)
  }

  /** The listeners called, in order. */
  ghost function Called<L>(found: seq<Slot<L, ()>>): seq<L> {
    if found == [] then []
    else Called(found[..|found| - 1]) + if found[|found| - 1].Kept? then [found[|found| - 1].key] else []
  }

  lemma CalledPush<L>(found: seq<Slot<L, ()>>, e: Slot<L, ()>)
    ensures Called(found + [e]) == Called(found) + if e.Kept? then [e.key] else []
  {
    assert (found + [e])[..|found|] == found;
  }

  /** One turn of the loop: what is found at slot i, and how the walk goes on. */
  lemma WalkTurn<L(!new)>(m: Registry<L>, kind: string, i: nat, calls: nat, acts: nat -> seq<Act<L>>, bound: nat)
    requires AllUnique(m) && AddsEnd(acts, bound) && i < |At(m, kind)|
    ensures var kept := At(m, kind)[i].Kept?;
            var m', calls' := if kept then PerformAll(m, acts(calls)) else m, if kept then calls + 1 else calls;
            && AllUnique(m') && |At(m', kind)| >= |At(m, kind)| && (calls >= bound ==> |At(m', kind)| == |At(m, kind)|)
            && var r := Walk(m', kind, i + 1, calls', acts, bound);
               Walk(m, kind, i, calls, acts, bound) == Outcome(r.registry, [At(m, kind)[i]] + r.found)
  {
    PerformAllAges(m, acts(calls), kind);
  }

  class Window<L(==, !new)> {
    var listeners: Registry<L>

    constructor ()
      ensures listeners == map[]
    {
      listeners := map[];
    }

    method AddEventListener(kind: string, listener: L)
      modifies this
      ensures listeners == Perform(old(listeners), Add(kind, listener))
    {
      if kind !in listeners { listeners := listeners[kind := []]; }
      listeners := listeners[kind := Put(listeners[kind], listener, ())];
    }

    method RemoveEventListener(kind: string, listener: L)
      modifies this
      ensures listeners == Perform(old(listeners), Remove(kind, listener))
    {
      if kind in listeners { listeners := listeners[kind := Delete(listeners[kind], listener)]; }
    }

    /** A handler runs. */
    method Handle(acts: seq<Act<L>>)
      modifies this
      ensures listeners == PerformAll(old(listeners), acts)
    {
      for i := 0 to |acts|
        invariant listeners == PerformAll(old(listeners), acts[..i])
      {
        assert acts[..i + 1][..i] == acts[..i];
        match acts[i]
        case Add(kind, l) => AddEventListener(kind, l);
        case Remove(kind, l) => RemoveEventListener(kind, l);
      }
      assert acts[..|acts|] == acts;
    }

    /** The loop over the live set; it ends because the additions do. */
    method DispatchEvent(kind: string, acts: nat -> seq<Act<L>>, ghost bound: nat) returns (called: seq<L>)
      requires AllUnique(listeners) && AddsEnd(acts, bound)
      modifies this
      ensures AllUnique(listeners)
      ensures kind == "" ==> called == [] && listeners == old(listeners)
      ensures kind != "" ==>
        var r := Walk(old(listeners), kind, 0, 0, acts, bound); listeners == r.registry && called == Called(r.found)
    {
      hide Walk, Called, PerformAll, Perform, AllUnique, AddsEnd;
      called := [];
      NoneCalled<L>();
      if kind == "" { return; }
      var i, calls := 0, 0;
      ghost var all := Walk(listeners, kind, 0, 0, acts, bound);
      ghost var found: seq<Slot<L, ()>> := [];
      assert found + all.found == all.found;
      while i < |At(listeners, kind)|
        invariant AllUnique(listeners) && called == Called(found)
        invariant all.registry == Walk(listeners, kind, i, calls, acts, bound).registry
        invariant all.found == found + Walk(listeners, kind, i, calls, acts, bound).found
        decreases if calls < bound then bound - calls else 0, |At(listeners, kind)| - i
      {
        ghost var e := At(listeners, kind)[i];
        ghost var next := if e.Kept? then PerformAll(listeners, acts(calls)) else listeners;
        WalkTurn(listeners, kind, i, calls, acts, bound);
        CalledPush(found, e);
        Assoc(found, [e], Walk(next, kind, i + 1, if e.Kept? then calls + 1 else calls, acts, bound).found);
        if At(listeners, kind)[i].Kept? {
          called := called + [At(listeners, kind)[i].key];
          Handle(acts(calls));
          calls := calls + 1;
        }
        found := found + [e];
        i := i + 1;
      }
      WalkEnd(listeners, kind, i, calls, acts, bound);
      assert found + [] == found;
    }
  }

  lemma Assoc<T>(a: seq<T>, b: seq<T>, c: seq<T>)
    ensures a + (b + c) == a + b + c
  {
  }

  lemma NoneCalled<L>()
    ensures Called<L>([]) == []
  {
  }

  lemma WalkEnd<L(!new)>(m: Registry<L>, kind: string, i: nat, calls: nat, acts: nat -> seq<Act<L>>, bound: nat)
    requires AllUnique(m) && AddsEnd(acts, bound) && i >= |At(m, kind)|
    ensures Walk(m, kind, i, calls, acts, bound) == Outcome(m, [])
  {
  }

  // --- Who is called --------------------------------------------------------------------------------

  /**
   Each slot, that is each stay of a listener in the set, is found at most once and in order of registration: what
   the loop finds in a slot is what was in it at the start or nothing, and what stays in it to the end was found.
   */
  lemma {:induction false} FoundInPlace<L(!new)>(m: Registry<L>, kind: string, i: nat, calls: nat, acts: nat -> seq<Act<L>>, bound: nat)
    requires AllUnique(m) && AddsEnd(acts, bound) && i <= |At(m, kind)|
    ensures var r := Walk(m, kind, i, calls, acts, bound);
            && AllUnique(r.registry) && Ages(At(m, kind), At(r.registry, kind))
            && Ages(At(m, kind)[i..], r.found) && Ages(r.found, At(r.registry, kind)[i..])
            && |r.found| == |At(r.registry, kind)| - i
    decreases if calls < bound then bound - calls else 0, |At(m, kind)| - i
  {
    hide Unique;
    var es := At(m, kind);
    if i < |es| {
      WalkTurn(m, kind, i, calls, acts, bound);
      PerformAllAges(m, acts(calls), kind);
      hide PerformAll, AddsEnd;
      var m' := if es[i].Kept? then PerformAll(m, acts(calls)) else m;
      var calls' := if es[i].Kept? then calls + 1 else calls;
      FoundInPlace(m', kind, i + 1, calls', acts, bound);
      FoundHere(es, At(m', kind), At(Walk(m', kind, i + 1, calls', acts, bound).registry, kind),
                Walk(m', kind, i + 1, calls', acts, bound).found, i);
    }
  }

  lemma FoundHere<L>(a: seq<Slot<L, ()>>, b: seq<Slot<L, ()>>, c: seq<Slot<L, ()>>, rest: seq<Slot<L, ()>>, i: nat)
    requires i < |a| && Ages(a, b) && Ages(b, c)
    requires Ages(b[i + 1..], rest) && Ages(rest, c[i + 1..]) && |rest| == |c| - i - 1
    ensures Ages(a, c) && Ages(a[i..], [a[i]] + rest) && Ages([a[i]] + rest, c[i..])
  {
    var found := [a[i]] + rest;
    forall k | 0 <= k < |a| - i
      ensures found[k] == a[i..][k] || found[k] == Gone
    {
      if k > 0 { assert rest[k - 1] == b[i + 1..][k - 1] || rest[k - 1] == Gone; }
    }
    forall k | 0 <= k < |found|
      ensures c[i..][k] == found[k] || c[i..][k] == Gone
    {
      if k > 0 { assert c[i + 1..][k - 1] == rest[k - 1] || c[i + 1..][k - 1] == Gone; }
    }
  }

  /** A listener found again later has left the slot it was in before. */
  lemma {:induction false} LeftBefore<L(!new)>(
    m: Registry<L>, kind: string, i: nat, calls: nat, acts: nat -> seq<Act<L>>, bound: nat, l: L, p: nat, k: nat)
    requires AllUnique(m) && AddsEnd(acts, bound) && p < i <= |At(m, kind)|
    requires At(m, kind)[p] == Kept(l, ()) || At(m, kind)[p] == Gone
    requires var found := Walk(m, kind, i, calls, acts, bound).found; k < |found| && found[k] == Kept(l, ())
    ensures var end := At(Walk(m, kind, i, calls, acts, bound).registry, kind); p < |end| && end[p] == Gone
    decreases k
  {
    hide PerformAll, AddsEnd, AllUnique, Walk, At;
    var es := At(m, kind);
    if i >= |es| {
      WalkEnd(m, kind, i, calls, acts, bound);
    } else {
      FoundInPlace(m, kind, i, calls, acts, bound);
      WalkTurn(m, kind, i, calls, acts, bound);
      PerformAllAges(m, acts(calls), kind);
      var m' := if es[i].Kept? then PerformAll(m, acts(calls)) else m;
      var calls' := if es[i].Kept? then calls + 1 else calls;
      var rest := Walk(m', kind, i + 1, calls', acts, bound).found;
      assert Walk(m, kind, i, calls, acts, bound).found == [es[i]] + rest;
      if k == 0 {
        OneSlotEach(m, kind, l, p, i);
      } else {
        LeftBefore(m', kind, i + 1, calls', acts, bound, l, p, k - 1);
      }
    }
  }

  lemma OneSlotEach<L>(m: Registry<L>, kind: string, l: L, p: nat, i: nat)
    requires AllUnique(m) && p < i < |At(m, kind)| && At(m, kind)[i] == Kept(l, ())
    ensures At(m, kind)[p] != Kept(l, ())
  {
    assert Unique(m[kind]);
  }

  /** One listener is called again in the same dispatch only for a new stay: its earlier slot is empty by the end. */
  lemma {:induction false} CalledAgainForNewStay<L(!new)>(
    m: Registry<L>, kind: string, i: nat, calls: nat, acts: nat -> seq<Act<L>>, bound: nat, l: L, j: nat, k: nat)
    requires AllUnique(m) && AddsEnd(acts, bound) && i <= |At(m, kind)| && j < k
    requires var found := Walk(m, kind, i, calls, acts, bound).found;
             k < |found| && found[j] == Kept(l, ()) && found[k] == Kept(l, ())
    ensures var end := At(Walk(m, kind, i, calls, acts, bound).registry, kind); i + j < |end| && end[i + j] == Gone
    decreases j
  {
    hide PerformAll, AddsEnd, AllUnique, Walk, At;
    var es := At(m, kind);
    if i >= |es| {
      WalkEnd(m, kind, i, calls, acts, bound);
    } else {
      WalkTurn(m, kind, i, calls, acts, bound);
      PerformAllAges(m, acts(calls), kind);
      var m' := if es[i].Kept? then PerformAll(m, acts(calls)) else m;
      var calls' := if es[i].Kept? then calls + 1 else calls;
      var rest := Walk(m', kind, i + 1, calls', acts, bound).found;
      assert Walk(m, kind, i, calls, acts, bound).found == [es[i]] + rest;
      if j == 0 {
        LeftBefore(m', kind, i + 1, calls', acts, bound, l, i, k - 1);
      } else {
        CalledAgainForNewStay(m', kind, i + 1, calls', acts, bound, l, j - 1, k - 1);
      }
    }
  }

  ghost predicate NeverRemoved<L(!new)>(acts: nat -> seq<Act<L>>, kind: string, l: L) {
    forall n :: Remove(kind, l) !in acts(n)
  }

  lemma {:induction false} StaysPut<L>(m: Registry<L>, acts: seq<Act<L>>, kind: string, l: L, j: nat)
    requires Remove(kind, l) !in acts && j < |At(m, kind)| && At(m, kind)[j] == Kept(l, ())
    ensures var es := At(PerformAll(m, acts), kind); j < |es| && es[j] == Kept(l, ())
  {
    if acts != [] {
      StaysPut(m, acts[..|acts| - 1], kind, l, j);
      assert acts[|acts| - 1] != Remove(kind, l);
    }
  }

  lemma {:induction false} StaysToTheEnd<L(!new)>(
    m: Registry<L>, kind: string, i: nat, calls: nat, acts: nat -> seq<Act<L>>, bound: nat, l: L, j: nat)
    requires AllUnique(m) && AddsEnd(acts, bound) && NeverRemoved(acts, kind, l)
    requires j < |At(m, kind)| && At(m, kind)[j] == Kept(l, ())
    ensures var end := At(Walk(m, kind, i, calls, acts, bound).registry, kind); j < |end| && end[j] == Kept(l, ())
    decreases if calls < bound then bound - calls else 0, |At(m, kind)| - i
  {
    var es := At(m, kind);
    if i >= |es| {
      WalkEnd(m, kind, i, calls, acts, bound);
    } else {
      WalkTurn(m, kind, i, calls, acts, bound);
      StaysPut(m, acts(calls), kind, l, j);
      hide PerformAll, AddsEnd, NeverRemoved, Walk;
      var m' := if es[i].Kept? then PerformAll(m, acts(calls)) else m;
      StaysToTheEnd(m', kind, i + 1, if es[i].Kept? then calls + 1 else calls, acts, bound, l, j);
    }
  }

  /** A listener present throughout is called exactly once, at its place, whatever the handlers do to the others. */
  lemma PresentThroughout<L(!new)>(m: Registry<L>, kind: string, acts: nat -> seq<Act<L>>, bound: nat, l: L, j: nat)
    requires AllUnique(m) && AddsEnd(acts, bound) && NeverRemoved(acts, kind, l)
    requires j < |At(m, kind)| && At(m, kind)[j] == Kept(l, ())
    ensures var found := Walk(m, kind, 0, 0, acts, bound).found;
            j < |found| && forall k :: 0 <= k < |found| ==> (found[k] == Kept(l, ()) <==> k == j)
  {
    var r := Walk(m, kind, 0, 0, acts, bound);
    FoundInPlace(m, kind, 0, 0, acts, bound);
    StaysToTheEnd(m, kind, 0, 0, acts, bound, l, j);
    assert Unique(At(m, kind));
    assert At(m, kind)[0..] == At(m, kind) && At(r.registry, kind)[0..] == At(r.registry, kind);
    forall k | 0 <= k < |r.found| && r.found[k] == Kept(l, ())
      ensures k == j
    {
      hide Walk;
      if k > j { CalledAgainForNewStay(m, kind, 0, 0, acts, bound, l, j, k); }
    }
  }

  // --- Exactly who is called ------------------------------------------------------------------------

  /** The registry after the first n handler calls. */
  function After<L(==)>(m: Registry<L>, acts: nat -> seq<Act<L>>, n: nat): Registry<L> {
    if n == 0 then m else PerformAll(After(m, acts, n - 1), acts(n - 1))
  }

  lemma AfterStep<L>(m: Registry<L>, acts: nat -> seq<Act<L>>, n: nat)
    ensures After(m, acts, n + 1) == PerformAll(After(m, acts, n), acts(n))
  {
  }

  lemma {:induction false} AfterAges<L>(m: Registry<L>, acts: nat -> seq<Act<L>>, n: nat, k: nat, kind: string)
    requires AllUnique(m) && n <= k
    ensures AllUnique(After(m, acts, n)) && AllUnique(After(m, acts, k))
    ensures Ages(At(After(m, acts, n), kind), At(After(m, acts, k), kind))
  {
    hide AllUnique, PerformAll;
    if k > 0 {
      AfterAges(m, acts, if n < k then n else k - 1, k - 1, kind);
      PerformAllAges(After(m, acts, k - 1), acts(k - 1), kind);
    }
  }

  lemma {:induction false} CalledCons<L>(e: Slot<L, ()>, rest: seq<Slot<L, ()>>)
    ensures |Called([e] + rest)| == (if e.Kept? then 1 else 0) + |Called(rest)|
  {
    if rest == [] {
      assert [e] + rest == [e] && [e][..0] == [];
      assert |Called([e])| == |Called<L>([])| + if e.Kept? then 1 else 0;
    } else {
      CalledCons(e, rest[..|rest| - 1]);
      assert ([e] + rest)[..|rest|] == [e] + rest[..|rest| - 1];
    }
  }

  /** Slot i + j was found as the registry holds it after the handler calls made before it. */
  ghost predicate FoundInTurn<L>(m: Registry<L>, kind: string, acts: nat -> seq<Act<L>>, i: nat, calls: nat, found: seq<Slot<L, ()>>, j: nat)
    requires j < |found|
  {
    var turn := At(After(m, acts, calls + |Called(found[..j])|), kind);
    i + j < |turn| && found[j] == turn[i + j]
  }

  lemma FirstInTurn<L>(m: Registry<L>, kind: string, acts: nat -> seq<Act<L>>, i: nat, calls: nat, e: Slot<L, ()>, rest: seq<Slot<L, ()>>)
    requires i < |At(After(m, acts, calls), kind)| && e == At(After(m, acts, calls), kind)[i]
    ensures FoundInTurn(m, kind, acts, i, calls, [e] + rest, 0)
  {
    hide Called, After, At;
    assert ([e] + rest)[..0] == [];
    NoneCalled<L>();
  }

  lemma RestInTurn<L>(m: Registry<L>, kind: string, acts: nat -> seq<Act<L>>, i: nat, calls: nat, e: Slot<L, ()>, rest: seq<Slot<L, ()>>, j: nat)
    requires j < |rest| && FoundInTurn(m, kind, acts, i + 1, if e.Kept? then calls + 1 else calls, rest, j)
    ensures FoundInTurn(m, kind, acts, i, calls, [e] + rest, j + 1)
  {
    hide Called, After, At;
    assert ([e] + rest)[..j + 1] == [e] + rest[..j];
    CalledCons(e, rest[..j]);
  }

  /** For every dispatch: each slot is found as the registry holds it after exactly the handler calls made before it. */
  lemma {:induction false} FoundExactly<L(!new)>(
    m0: Registry<L>, m: Registry<L>, kind: string, i: nat, calls: nat, acts: nat -> seq<Act<L>>, bound: nat, j: nat)
    requires m == After(m0, acts, calls) && AllUnique(m) && AddsEnd(acts, bound)
    requires j < |Walk(m, kind, i, calls, acts, bound).found|
    ensures FoundInTurn(m0, kind, acts, i, calls, Walk(m, kind, i, calls, acts, bound).found, j)
    decreases j
  {
    hide PerformAll, AddsEnd, AllUnique, Walk, FoundInTurn, Called, After, At;
    if i >= |At(m, kind)| {
      WalkEnd(m, kind, i, calls, acts, bound);
    } else {
      WalkTurn(m, kind, i, calls, acts, bound);
      var e := At(m, kind)[i];
      var m', calls' := if e.Kept? then PerformAll(m, acts(calls)) else m, if e.Kept? then calls + 1 else calls;
      var rest := Walk(m', kind, i + 1, calls', acts, bound).found;
      if j == 0 {
        FirstInTurn(m0, kind, acts, i, calls, e, rest);
      } else {
        AfterStep(m0, acts, calls);
        assert m' == After(m0, acts, calls');
        FoundExactly(m0, m', kind, i + 1, calls', acts, bound, j - 1);
        RestInTurn(m0, kind, acts, i, calls, e, rest, j - 1);
      }
    }
  }

  ghost function Found<L(!new)>(m: Registry<L>, kind: string, acts: nat -> seq<Act<L>>, bound: nat): seq<Slot<L, ()>>
    requires AllUnique(m) && AddsEnd(acts, bound)
  {
    Walk(m, kind, 0, 0, acts, bound).found
  }

  /** In a whole dispatch, with k handler calls made before slot j is reached. */
  lemma FoundAt<L(!new)>(m: Registry<L>, kind: string, acts: nat -> seq<Act<L>>, bound: nat, j: nat) returns (k: nat)
    requires AllUnique(m) && AddsEnd(acts, bound) && j < |Found(m, kind, acts, bound)|
    ensures k == |Called(Found(m, kind, acts, bound)[..j])|
    ensures j < |At(After(m, acts, k), kind)| && Found(m, kind, acts, bound)[j] == At(After(m, acts, k), kind)[j]
  {
    hide Walk, AddsEnd, AllUnique, Called;
    k := |Called(Found(m, kind, acts, bound)[..j])|;
    FoundExactly(m, m, kind, 0, 0, acts, bound, j);
  }

  lemma {:induction false} RemoveEmpties<L>(m: Registry<L>, acts: seq<Act<L>>, kind: string, l: L, j: nat)
    requires AllUnique(m) && Remove(kind, l) in acts
    requires j < |At(m, kind)| && (At(m, kind)[j] == Kept(l, ()) || At(m, kind)[j] == Gone)
    ensures var es := At(PerformAll(m, acts), kind); j < |es| && es[j] == Gone
  {
    var init, a := acts[..|acts| - 1], acts[|acts| - 1];
    PerformAllAges(m, init, kind);
    var m' := PerformAll(m, init);
    PerformAges(m', a, kind);
    if a == Remove(kind, l) {
      DeleteAt(At(m', kind), l, j);
    } else {
      RemoveEmpties(m, init, kind, l, j);
    }
  }

  lemma DeleteAt<L>(es: seq<Slot<L, ()>>, l: L, j: nat)
    requires Unique(es) && j < |es| && (es[j] == Kept(l, ()) || es[j] == Gone)
    ensures Delete(es, l)[j] == Gone
  {
  }

  /** A listener in its slot after n0 calls, from the start or added by a handler, and removed by a later call before its
      turn, is not called. */
  lemma RemovedIsNotCalled<L(!new)>(m: Registry<L>, kind: string, acts: nat -> seq<Act<L>>, bound: nat, l: L, j: nat, n0: nat, n: nat)
    requires AllUnique(m) && AddsEnd(acts, bound) && j < |Found(m, kind, acts, bound)|
    requires j < |At(After(m, acts, n0), kind)| && At(After(m, acts, n0), kind)[j] == Kept(l, ())
    requires n0 <= n < |Called(Found(m, kind, acts, bound)[..j])| && Remove(kind, l) in acts(n)
    ensures Found(m, kind, acts, bound)[j] == Gone
  {
    hide Walk, Found, AddsEnd, AllUnique, Called, PerformAll, After;
    var k := FoundAt(m, kind, acts, bound, j);
    EmptiedBy(m, acts, kind, l, j, n0, n, k);
  }

  lemma EmptiedBy<L>(m: Registry<L>, acts: nat -> seq<Act<L>>, kind: string, l: L, j: nat, n0: nat, n: nat, k: nat)
    requires AllUnique(m) && j < |At(After(m, acts, n0), kind)| && At(After(m, acts, n0), kind)[j] == Kept(l, ())
    requires n0 <= n < k && Remove(kind, l) in acts(n)
    ensures var es := At(After(m, acts, k), kind); j < |es| && es[j] == Gone
  {
    AfterStep(m, acts, n);
    hide AllUnique, PerformAll, After;
    AfterAges(m, acts, n0, n, kind);
    RemoveEmpties(After(m, acts, n), acts(n), kind, l, j);
    AfterAges(m, acts, n + 1, k, kind);
  }

  lemma {:induction false} StaysThrough<L>(m: Registry<L>, acts: nat -> seq<Act<L>>, kind: string, l: L, j: nat, n: nat, k: nat)
    requires n <= k && j < |At(After(m, acts, n), kind)| && At(After(m, acts, n), kind)[j] == Kept(l, ())
    requires forall i :: n <= i < k ==> Remove(kind, l) !in acts(i)
    ensures var es := At(After(m, acts, k), kind); j < |es| && es[j] == Kept(l, ())
  {
    hide PerformAll;
    if n < k {
      StaysThrough(m, acts, kind, l, j, n, k - 1);
      StaysPut(After(m, acts, k - 1), acts(k - 1), kind, l, j);
    }
  }

  /** A listener that is there after n calls, from the start or added by a handler, and not removed before its turn, is called. */
  lemma StillThereIsCalled<L(!new)>(m: Registry<L>, kind: string, acts: nat -> seq<Act<L>>, bound: nat, l: L, j: nat, n: nat)
    requires AllUnique(m) && AddsEnd(acts, bound) && j < |Found(m, kind, acts, bound)|
    requires n <= |Called(Found(m, kind, acts, bound)[..j])|
    requires j < |At(After(m, acts, n), kind)| && At(After(m, acts, n), kind)[j] == Kept(l, ())
    requires forall i :: n <= i < |Called(Found(m, kind, acts, bound)[..j])| ==> Remove(kind, l) !in acts(i)
    ensures Found(m, kind, acts, bound)[j] == Kept(l, ())
  {
    hide Walk, Found, AddsEnd, AllUnique, Called;
    var k := FoundAt(m, kind, acts, bound, j);
    StaysThrough(m, acts, kind, l, j, n, k);
  }
}
