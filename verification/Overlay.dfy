/**
 Overlays and browser history on a phone (client/src/lib/overlay-history.ts). Opening an overlay pushes a history
 entry so that Back closes it; closing one in the UI consumes its entry with an asynchronous history.back().
 The browser is modelled by the markers of the entries above the app's own and by the traversals under way.
 */
module Overlay {
  import opened Logs
  import opened Options

  /** A tracked overlay with its close callback. `nested` records which of the two operations opened it. */
  datatype Entry = Entry(id: string, close: nat, nested: bool)

  /** `closed` lists the callbacks invoked so far; `left` is set once a Back has left the app. */
  datatype Phone = Phone(
    stack: seq<Entry>, deferred: seq<Entry>, ownPops: nat, replacing: Option<string>,
    entries: seq<string>, traversals: nat, left: bool, closed: seq<Entry>)

  // --- Lists of entries -------------------------------------------------------

  function Index(es: seq<Entry>, id: string): (i: nat)
    ensures i <= |es|
    ensures i < |es| ==> es[i].id == id
    ensures forall k :: 0 <= k < i ==> es[k].id != id
  {
    if es == [] || es[0].id == id then 0 else 1 + Index(es[1..], id)
  }

  predicate Tracks(es: seq<Entry>, id: string) {
    Index(es, id) < |es|
  }

  function Refresh(es: seq<Entry>, e: Entry): seq<Entry>
    requires Tracks(es, e.id)
  {
    var i := Index(es, e.id);
    es[i := es[i].(close := e.close)]
  }

  function Reversed(es: seq<Entry>): (r: seq<Entry>)
    ensures |r| == |es|
  {
    if es == [] then [] else [es[|es| - 1]] + Reversed(es[..|es| - 1])
  }

  function Ids(es: seq<Entry>): seq<string> {
    seq(|es|, i requires 0 <= i < |es| => es[i].id)
  }

  function SetLast(entries: seq<string>, id: string): seq<string> {
    if entries == [] then entries else entries[|entries| - 1 := id]
  }

  // --- What each operation does -------------------------------------------------

  function Opened(s: Phone, e: Entry): Phone {
    if s.ownPops > 0 then
      if s.replacing.Some? && |s.stack| == 1 then
        if s.stack[0].id == e.id then s.(stack := [s.stack[0].(close := e.close)])
        else s.(stack := [e], deferred := [], replacing := Some(e.id), closed := s.closed + Reversed(s.deferred) + [s.stack[0]])
      else if Tracks(s.deferred, e.id) then s.(deferred := Refresh(s.deferred, e))
      else s.(deferred := [e], closed := s.closed + Reversed(s.deferred))
    else if Tracks(s.stack, e.id) then s.(stack := Refresh(s.stack, e))
    else if |s.stack| > 1 then
      s.(stack := [e], replacing := Some(e.id), ownPops := |s.stack| - 1, traversals := s.traversals + 1,
         closed := s.closed + Reversed(s.stack))
    else if |s.stack| == 1 then
      s.(stack := [e], entries := SetLast(s.entries, e.id), closed := s.closed + [s.stack[0]])
    else s.(stack := [e], entries := s.entries + [e.id])
  }

  function OpenedNested(s: Phone, e: Entry): Phone {
    if s.ownPops > 0 then
      if Tracks(s.deferred, e.id) then s.(deferred := Refresh(s.deferred, e)) else s.(deferred := s.deferred + [e])
    else if Tracks(s.stack, e.id) then s.(stack := Refresh(s.stack, e))
    else s.(stack := s.stack + [e], entries := s.entries + [e.id])
  }

  function Closed(s: Phone, id: string): Phone {
    var d, i := Index(s.deferred, id), Index(s.stack, id);
    if d < |s.deferred| then s.(deferred := s.deferred[..d] + s.deferred[d + 1..])
    else if i == |s.stack| then s
    else
      var t := s.(stack := s.stack[..i] + s.stack[i + 1..], replacing := if s.replacing == Some(id) then None else s.replacing);
      if i < |s.stack| - 1 then t
      else t.(ownPops := s.ownPops + 1, traversals := if s.ownPops == 0 then s.traversals + 1 else s.traversals)
  }

  /** The popstate handler. */
  function Popped(s: Phone): Phone {
    if s.ownPops > 1 then s.(ownPops := s.ownPops - 1, traversals := s.traversals + 1)
    else if s.ownPops == 1 then
      var t := s.(ownPops := 0, replacing := None,
                  entries := if s.replacing.Some? && s.stack != [] && s.stack[0].id == s.replacing.value
                             then SetLast(s.entries, s.replacing.value) else s.entries);
      t.(stack := t.stack + t.deferred, entries := t.entries + Ids(t.deferred), deferred := [])
    else if s.stack != [] then s.(stack := s.stack[..|s.stack| - 1], closed := s.closed + [s.stack[|s.stack| - 1]])
    else s
  }

  /** A traversal completes: it leaves the app from the app's own entry, and otherwise fires popstate. */
  function Traversed(s: Phone): Phone
    requires s.traversals > 0
  {
    if s.entries == [] then s.(traversals := s.traversals - 1, left := true)
    else Popped(s.(traversals := s.traversals - 1, entries := s.entries[..|s.entries| - 1]))
  }

  datatype Label = Open(e: Entry) | OpenChild(e: Entry) | UiClose(id: string) | Back | TraversalDone

  /** One step of the app, the user or the browser. Nothing happens in the app once it has been left. */
  function Step(s: Phone, l: Label): Phone {
    if s.left then s else
      match l
      case Open(e) => Opened(s, e.(nested := false))
      case OpenChild(e) => OpenedNested(s, e.(nested := true))
      case UiClose(id) => Closed(s, id)
      case Back => s.(traversals := s.traversals + 1)
      case TraversalDone => if s.traversals > 0 then Traversed(s) else s
  }

  function Run(s: Phone, ls: seq<Label>): Phone {
    FoldAll(Step, s, ls)
  }

  const Start := Phone([], [], 0, None, [], 0, false, [])

  // --- The imperative module ------------------------------------------------------

  /** The part of `window.history` the module uses. */
  class Browser {
    var entries: seq<string>
    var traversals: nat
    var left: bool

    constructor ()
      ensures entries == [] && traversals == 0 && !left
    {
      entries, traversals, left := [], 0, false;
    }

    method PushState(marker: string)
      modifies this
      ensures entries == old(entries) + [marker] && traversals == old(traversals) && left == old(left)
    {
      entries := entries + [marker];
    }

    method ReplaceState(marker: string)
      modifies this
      ensures entries == SetLast(old(entries), marker) && traversals == old(traversals) && left == old(left)
    {
      if entries != [] { entries := entries[|entries| - 1 := marker]; }
    }

    method Go()
      modifies this
      ensures entries == old(entries) && traversals == old(traversals) + 1 && left == old(left)
    {
      traversals := traversals + 1;
    }
  }

  class OverlayHistory {
    const env: Browser
    var stack: seq<Entry>
    var ownPops: nat
    var replacing: Option<string>
    var deferred: seq<Entry>
    var closed: seq<Entry>         // the callbacks invoked so far

    ghost function View(): Phone
      reads this, env
    {
      Phone(stack, deferred, ownPops, replacing, env.entries, env.traversals, env.left, closed)
    }

    constructor (env: Browser)
      requires env.entries == [] && env.traversals == 0 && !env.left
      ensures this.env == env && View() == Start
    {
      this.env := env;
      stack, deferred, ownPops, replacing, closed := [], [], 0, None, [];
    }

    /** Invoke the close callbacks of `es`, last one first. */
    method CloseAll(es: seq<Entry>)
      modifies this`closed
      ensures closed == old(closed) + Reversed(es)
    {
      var i := |es|;
      assert es[..i] == es;
      while i > 0
        invariant 0 <= i <= |es|
        invariant closed + Reversed(es[..i]) == old(closed) + Reversed(es)
      {
        i := i - 1;
        assert es[..i + 1][..i] == es[..i];
        closed := closed + [es[i]];
      }
    }

    /** `opened`. */
    method OnOpened(phone: bool, e: Entry)
      modifies this, env
      ensures View() == if phone then Opened(old(View()), e) else old(View())
    {
      if !phone { return; }
      if ownPops > 0 {
        if replacing.Some? && |stack| == 1 {
          if stack[0].id == e.id {
            stack := [stack[0].(close := e.close)];
            return;
          }
          CloseAll(deferred);
          deferred := [];
          closed := closed + [stack[0]];
          stack := [e];
          replacing := Some(e.id);
          return;
        }
        var i := Index(deferred, e.id);
        if i < |deferred| {
          deferred := deferred[i := deferred[i].(close := e.close)];
        } else {
          CloseAll(deferred);
          deferred := [e];
        }
        return;
      }
      var i := Index(stack, e.id);
      if i < |stack| {
        stack := stack[i := stack[i].(close := e.close)];
      } else if |stack| > 1 {
        CloseAll(stack);
        var extra := |stack| - 1;
        stack := [e];
        replacing := Some(e.id);
        ownPops := ownPops + extra;
        env.Go();
      } else if |stack| > 0 {
        closed := closed + [stack[0]];
        stack := [e];
        env.ReplaceState(e.id);
      } else {
        stack := [e];
        env.PushState(e.id);
      }
    }

    /** `openedNested`. */
    method OnOpenedNested(phone: bool, e: Entry)
      modifies this, env
      ensures View() == if phone then OpenedNested(old(View()), e) else old(View())
    {
      if !phone { return; }
      if ownPops > 0 {
        var i := Index(deferred, e.id);
        if i < |deferred| { deferred := deferred[i := deferred[i].(close := e.close)]; } else { deferred := deferred + [e]; }
        return;
      }
      var i := Index(stack, e.id);
      if i < |stack| {
        stack := stack[i := stack[i].(close := e.close)];
      } else {
        stack := stack + [e];
        env.PushState(e.id);
      }
    }

    /** `closed`. */
    method OnClosed(id: string)
      modifies this, env
      ensures View() == Closed(old(View()), id)
    {
      hide Index;
      var d := Index(deferred, id);
      if d < |deferred| {
        deferred := deferred[..d] + deferred[d + 1..];
        return;
      }
      var i := Index(stack, id);
      if i == |stack| { return; }
      if replacing == Some(id) { replacing := None; }
      var wasTop := i == |stack| - 1;
      stack := stack[..i] + stack[i + 1..];
      if wasTop {
        ownPops := ownPops + 1;
        if ownPops == 1 { env.Go(); }
      }
    }

    /** The overlays opened meanwhile get their entries, in order. */
    method Activate()
      modifies this`stack, this`deferred, env
      ensures stack == old(stack) + old(deferred) && deferred == []
      ensures env.entries == old(env.entries) + Ids(old(deferred)) && env.traversals == old(env.traversals) && env.left == old(env.left)
    {
      for i := 0 to |deferred|
        invariant deferred == old(deferred) && env.traversals == old(env.traversals) && env.left == old(env.left)
        invariant stack == old(stack) + deferred[..i] && env.entries == old(env.entries) + Ids(deferred[..i])
      {
        assert deferred[..i + 1] == deferred[..i] + [deferred[i]];
        assert Ids(deferred[..i + 1]) == Ids(deferred[..i]) + [deferred[i].id];
        stack := stack + [deferred[i]];
        env.PushState(deferred[i].id);
      }
      assert deferred[..|deferred|] == deferred;
      deferred := [];
    }

    /** The popstate handler. */
    method OnPop()
      modifies this, env
      ensures View() == Popped(old(View()))
    {
      if ownPops > 0 {
        ownPops := ownPops - 1;
        if ownPops > 0 {
          env.Go();
          return;
        }
        if replacing.Some? {
          if stack != [] && stack[0].id == replacing.value { env.ReplaceState(replacing.value); }
          replacing := None;
        }
        Activate();
        return;
      }
      if stack != [] {
        closed := closed + [stack[|stack| - 1]];
        stack := stack[..|stack| - 1];
      }
    }

    /** A traversal completes. */
    method OnTraversed()
      requires env.traversals > 0
      modifies this, env
      ensures View() == Traversed(old(View()))
    {
      env.traversals := env.traversals - 1;
      if env.entries == [] {
        env.left := true;
      } else {
        env.entries := env.entries[..|env.entries| - 1];
        OnPop();
      }
    }

    method DriveOne(l: Label)
      modifies this, env
      ensures View() == Step(old(View()), l)
    {
      if env.left { return; }
      match l
      case Open(e) => OnOpened(true, e.(nested := false));
      case OpenChild(e) => OnOpenedNested(true, e.(nested := true));
      case UiClose(id) => OnClosed(id);
      case Back => env.Go();
      case TraversalDone => if env.traversals > 0 { OnTraversed(); }
    }

    /** Any run on a phone, from its start. */
    method Drive(ls: seq<Label>)
      requires View() == Start
      modifies this, env
      ensures View() == Run(Start, ls)
    {
      hide Step;
      for n := 0 to |ls|
        invariant View() == Run(Start, ls[..n])
      {
        assert ls[..n + 1] == ls[..n] + [ls[n]];
        FoldAllPush(Step, Start, ls[..n], ls[n]);
        DriveOne(ls[n]);
      }
      assert ls[..|ls|] == ls;
    }
  }
}
