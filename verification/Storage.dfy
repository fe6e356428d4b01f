/** The localStorage mock (test-setup.ts:81-99) refines an insertion-ordered list of items, for every sequence of calls. */
module Storage {
  import opened Logs
  import opened Options
  import opened Slots

  type Items = seq<(string, string)>

  datatype Call = SetItem(key: string, value: string) | RemoveItem(key: string) | Clear

  // --- The reference: a list of items -------------------------------------------------------

  function Position(items: Items, k: string): (i: nat)
    ensures i <= |items| && (i < |items| ==> items[i].0 == k)
    ensures forall j :: 0 <= j < i ==> items[j].0 != k
  {
    if items == [] || items[0].0 == k then 0 else 1 + Position(items[1..], k)
  }

  function RefStep(items: Items, c: Call): Items {
    match c
    case SetItem(k, v) =>
      var i := Position(items, k);
      if i < |items| then items[i := (k, v)] else items + [(k, v)]
    case RemoveItem(k) =>
      var i := Position(items, k);
      if i < |items| then items[..i] + items[i + 1..] else items
    case Clear => []
  }

  function Step(es: seq<Slot<string, string>>, c: Call): seq<Slot<string, string>> {
    match c
    case SetItem(k, v) => Put(es, k, v)
    case RemoveItem(k) => Delete(es, k)
    case Clear => []
  }

  // --- The mock ---------------------------------------------------------------------------------

  class LocalStorageMock {
    var store: seq<Slot<string, string>>

    constructor ()
      ensures store == []
    {
      store := [];
    }

    method Set(key: string, value: string)
      modifies this
      ensures store == Step(old(store), SetItem(key, value))
    {
      store := Put(store, key, value);
    }

    method Remove(key: string)
      modifies this
      ensures store == Step(old(store), RemoveItem(key))
    {
      store := Delete(store, key);
    }

    method Empty()
      modifies this
      ensures store == Step(old(store), Clear)
    {
      store := [];
    }

    /** Any sequence of calls, from the start. */
    method Drive(calls: seq<Call>)
      requires store == []
      modifies this
      ensures store == FoldAll(Step, [], calls)
    {
      for n := 0 to |calls|
        invariant store == FoldAll(Step, [], calls[..n])
      {
        assert calls[..n + 1] == calls[..n] + [calls[n]];
        FoldAllPush(Step, [], calls[..n], calls[n]);
        match calls[n]
        case SetItem(k, v) => Set(k, v);
        case RemoveItem(k) => Remove(k);
        case Clear => Empty();
      }
      assert calls[..|calls|] == calls;
    }

    function Get(key: string): Option<string>
      reads this
    {
      var i := Find(store, key);
      if i < |store| then Some(store[i].value) else None
    }

    /** `key`: null out of range, which includes negative indices. */
    function Key(index: int): Option<string>
      reads this
    {
      if 0 <= index < |Live(store)| then Some(Live(store)[index].0) else None
    }
  }

  // --- Refinement ---------------------------------------------------------------------------------

  lemma {:induction false} SkipsOthers(es: seq<Slot<string, string>>, k: string)
    requires forall j :: 0 <= j < |es| ==> es[j].Gone? || es[j].key != k
    ensures forall j :: 0 <= j < |Live(es)| ==> Live(es)[j].0 != k
  {
    if es != [] { SkipsOthers(es[..|es| - 1], k); }
  }

  lemma PositionAfter(a: Items, k: string, v: string, b: Items)
    requires forall j :: 0 <= j < |a| ==> a[j].0 != k
    ensures Position(a + [(k, v)] + b, k) == |a|
  {
    var all := a + [(k, v)] + b;
    assert all[|a|].0 == k;
    assert forall j :: 0 <= j < |a| ==> all[j] == a[j];
  }

  /** A key's slot and its place in the list correspond. */
  lemma FoundAlike(es: seq<Slot<string, string>>, k: string)
    ensures var i := Find(es, k);
            if i < |es| then
              && Live(es) == Live(es[..i]) + [(k, es[i].value)] + Live(es[i + 1..])
              && Position(Live(es), k) == |Live(es[..i])|
            else Position(Live(es), k) == |Live(es)|
  {
    hide Live, Find, Position;
    var i := Find(es, k);
    SkipsOthers(es[..i], k);
    if i < |es| {
      assert es == es[..i] + [es[i]] + es[i + 1..];
      LiveThree(es[..i], [es[i]], es[i + 1..]);
      LiveOne(es[i]);
      PositionAfter(Live(es[..i]), k, es[i].value, Live(es[i + 1..]));
    } else {
      assert es[..i] == es;
    }
  }

  lemma RewriteRefines(es: seq<Slot<string, string>>, i: nat, e: Slot<string, string>)
    requires i < |es|
    ensures Live(es[i := e]) == Live(es[..i]) + (if e.Kept? then [(e.key, e.value)] else []) + Live(es[i + 1..])
  {
    hide Live;
    assert es[i := e] == es[..i] + [e] + es[i + 1..];
    LiveThree(es[..i], [e], es[i + 1..]);
    LiveOne(e);
  }

  lemma SetRefines(es: seq<Slot<string, string>>, k: string, v: string)
    ensures Live(Put(es, k, v)) == RefStep(Live(es), SetItem(k, v))
  {
    hide Live, Find, Position;
    FoundAlike(es, k);
    var i := Find(es, k);
    if i < |es| {
      RewriteRefines(es, i, Kept(k, v));
    } else {
      LiveConcat(es, [Kept(k, v)]);
      LiveOne(Kept(k, v));
    }
  }

  lemma RemoveRefines(es: seq<Slot<string, string>>, k: string)
    ensures Live(Delete(es, k)) == RefStep(Live(es), RemoveItem(k))
  {
    hide Live, Find, Position;
    FoundAlike(es, k);
    var i := Find(es, k);
    if i < |es| { RewriteRefines(es, i, Gone); }
  }

  lemma StepRefines(es: seq<Slot<string, string>>, c: Call)
    ensures Live(Step(es, c)) == RefStep(Live(es), c)
  {
    match c
    case SetItem(k, v) => SetRefines(es, k, v);
    case RemoveItem(k) => RemoveRefines(es, k);
    case Clear =>
  }

  /** For every sequence of calls, iterating over the mock yields exactly the reference list. */
  lemma {:induction false} RefinesList(calls: seq<Call>)
    ensures Live(FoldAll(Step, [], calls)) == FoldAll(RefStep, [], calls)
  {
    if calls != [] {
      hide Live, Step, RefStep;
      RefinesList(calls[..|calls| - 1]);
      StepRefines(FoldAll(Step, [], calls[..|calls| - 1]), calls[|calls| - 1]);
    } else {
      assert Live<string, string>([]) == [];
    }
  }

  // --- The reference, in turn -------------------------------------------------------------------------

  ghost predicate DistinctKeys(items: Items) {
    forall i, j :: 0 <= i < j < |items| ==> items[i].0 != items[j].0
  }

  lemma {:induction false} KeysStayDistinct(calls: seq<Call>)
    ensures DistinctKeys(FoldAll(RefStep, [], calls))
  {
    if calls != [] { KeysStayDistinct(calls[..|calls| - 1]); }
  }

  /** Enumerating by index lists every stored key exactly once, each with a value, and nothing beyond the length. */
  lemma KeysEnumerate(s: LocalStorageMock, calls: seq<Call>, key: string)
    requires s.store == FoldAll(Step, [], calls)
    ensures DistinctKeys(Live(s.store))
    ensures s.Get(key).Some? <==> exists i :: s.Key(i) == Some(key)
    ensures forall i :: s.Key(i).Some? <==> 0 <= i < |Live(s.store)|
  {
    hide Live, Find, Position;
    RefinesList(calls);
    KeysStayDistinct(calls);
    FoundAlike(s.store, key);
    var p := Position(Live(s.store), key);
    if s.Get(key).Some? { assert s.Key(p) == Some(key); }
  }

  /** What the last call that set the key gave it, unless it was removed or everything was cleared since. */
  function LastSet(calls: seq<Call>, key: string): Option<string> {
    if calls == [] then None
    else
      match calls[|calls| - 1]
      case SetItem(k, v) => if k == key then Some(v) else LastSet(calls[..|calls| - 1], key)
      case RemoveItem(k) => if k == key then None else LastSet(calls[..|calls| - 1], key)
      case Clear => None
  }

  ghost predicate ValueAt(items: Items, key: string, value: Option<string>) {
    var p := Position(items, key);
    if p < |items| then value == Some(items[p].1) else value == None
  }

  lemma ValueStep(items: Items, c: Call, key: string, value: Option<string>)
    requires DistinctKeys(items) && ValueAt(items, key, value)
    ensures ValueAt(RefStep(items, c), key,
                    match c case SetItem(k, v) => (if k == key then Some(v) else value)
                            case RemoveItem(k) => (if k == key then None else value)
                            case Clear => None)
  {
    var p, t := Position(items, key), RefStep(items, c);
    if c.SetItem? {
      var i := Position(items, c.key);
      if i < |items| { assert Position(t, key) == p by { PositionIs(t, key, p); } }
      else if c.key == key { assert Position(t, key) == |items| by { PositionIs(t, key, |items|); } }
      else if p < |items| { assert Position(t, key) == p by { PositionIs(t, key, p); } }
      else { assert Position(t, key) == |t| by { PositionIs(t, key, |t|); } }
    } else if c.RemoveItem? {
      var i := Position(items, c.key);
      if i < |items| {
        if c.key == key || p == |items| { PositionIs(t, key, |t|); }
        else { PositionIs(t, key, if p < i then p else p - 1); }
      }
    }
  }

  lemma PositionIs(items: Items, k: string, i: nat)
    requires i <= |items| && (i < |items| ==> items[i].0 == k) && forall j :: 0 <= j < i ==> items[j].0 != k
    ensures Position(items, k) == i
  {
  }

  lemma {:induction false} ValueFollows(calls: seq<Call>, key: string)
    ensures ValueAt(FoldAll(RefStep, [], calls), key, LastSet(calls, key))
  {
    if calls != [] {
      var init := calls[..|calls| - 1];
      ValueFollows(init, key);
      KeysStayDistinct(init);
      hide RefStep, ValueAt, DistinctKeys;
      ValueStep(FoldAll(RefStep, [], init), calls[|calls| - 1], key, LastSet(init, key));
    }
  }

  /** After every sequence of calls a key has the value it was last given, unless it was taken away since. */
  lemma GetFollows(s: LocalStorageMock, calls: seq<Call>, key: string)
    requires s.store == FoldAll(Step, [], calls)
    ensures s.Get(key) == LastSet(calls, key)
  {
    RefinesList(calls);
    ValueFollows(calls, key);
    hide Live, Find, Position;
    FoundAlike(s.store, key);
  }

  /** Overwriting keeps a key's place; removing it and setting it again puts it last. */
  lemma PlaceOfKey(items: Items, k: string, v: string)
    requires DistinctKeys(items) && Position(items, k) < |items|
    ensures Position(RefStep(items, SetItem(k, v)), k) == Position(items, k)
    ensures var again := RefStep(RefStep(items, RemoveItem(k)), SetItem(k, v));
            |again| == |items| && again[|again| - 1] == (k, v)
  {
    var i := Position(items, k);
    assert items[i := (k, v)] == items[..i] + [(k, v)] + items[i + 1..];
    PositionAfter(items[..i], k, v, items[i + 1..]);
    var removed := items[..i] + items[i + 1..];
    assert forall j :: 0 <= j < |removed| ==> removed[j].0 != k;
    assert Position(removed, k) == |removed|;
  }
}
