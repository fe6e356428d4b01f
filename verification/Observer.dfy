/**
 The navigation observer of the image tests (installNavigationObserver in e2e/images.e2e.ts): page events append
 records, diagnostics are read asynchronously and merged into their record later, and stop() waits for the ones
 under way. A diagnostics read is named by the sequence number of its record.
 */
module Observer {
  import opened Logs
  import opened Options

  datatype Kind = FrameNavigated | Load | RequestFailed | PageError | Console

  /** What a diagnostics read reports; a failed read reports nothing. */
  datatype Details = Details(readyState: string, navigationType: Option<string>, controller: bool, registrations: nat,
                             protocolMismatch: Option<string>, appUpdateReady: bool)

  datatype Record = Record(sequence: nat, initial: bool, kind: Kind, url: string, status: Option<nat>,
                           failure: Option<string>, message: Option<string>, details: Option<Details>)

  /** `navigation` says the request is a navigation of the main frame. */
  datatype Event =
    | OnRequest(url: string, navigation: bool)
    | OnResponse(url: string, navigation: bool, code: nat)
    | OnRequestFailed(url: string, navigation: bool, failure: Option<string>)
    | OnFrameNavigated(url: string, main: bool)
    | OnLoad(url: string)
    | OnPageError(url: string, message: string)
    | OnConsole(url: string, severe: bool, message: string)
    | Read(id: nat, found: Option<Details>)   // a diagnostics read settles
    | Forget(id: nat)                         // its `finally` runs
    | Stop
    | StopReturns(call: nat)

  /**
   `reading` are the reads not settled yet, `pending` the observer's own set of them. Each call of stop() waits for
   the reads that were pending when it was made; `returned` are the calls that have come back.
   */
  datatype State = State(
    records: seq<Record>, statuses: map<string, nat>, sequence: nat, navigations: nat, seen: bool, stopped: bool,
    reading: set<nat>, pending: set<nat>, calls: seq<set<nat>>, returned: set<nat>)

  const Installed := State([], map[], 0, 0, false, false, {}, {}, [], {})

  // --- What each handler does -----------------------------------------------------------

  function Lookup(m: map<string, nat>, url: string): Option<nat> {
    if url in m then Some(m[url]) else None
  }

  function Pushed(s: State, kind: Kind, url: string, status: Option<nat>, failure: Option<string>, message: Option<string>): State {
    if s.stopped then s
    else
      var initial := kind == FrameNavigated && !s.seen;
      s.(records := s.records + [Record(s.sequence + 1, initial, kind, url, status, failure, message, None)],
         sequence := s.sequence + 1, seen := s.seen || initial)
  }

  function Tracked(s: State, kind: Kind, url: string): State {
    var t := Pushed(s, kind, url, Lookup(s.statuses, url), None, None);
    if s.stopped then t else t.(reading := t.reading + {t.sequence}, pending := t.pending + {t.sequence})
  }

  /** Page events reach no handler once stop() has removed them. */
  function Handled(s: State, e: Event): State
    requires !s.stopped
  {
    match e
    case OnRequest(url, nav) => if nav then s.(statuses := s.statuses[url := 0]) else s
    case OnResponse(url, nav, code) => if nav then s.(statuses := s.statuses[url := code]) else s
    case OnRequestFailed(url, nav, failure) =>
      if nav then Pushed(s, RequestFailed, url, Lookup(s.statuses, url), failure, None) else s
    case OnFrameNavigated(url, main) => if main then Tracked(s.(navigations := s.navigations + 1), FrameNavigated, url) else s
    case OnLoad(url) => Tracked(s, Load, url)
    case OnPageError(url, message) => Pushed(s, PageError, url, None, None, Some(message))
    case OnConsole(url, severe, message) => if severe then Pushed(s, Console, url, None, None, Some(message)) else s
    case _ => s
  }

  function Settled(s: State, id: nat, found: Option<Details>): State {
    if id in s.reading && 1 <= id <= |s.records|
    then s.(reading := s.reading - {id},
            records := if found == None then s.records else s.records[id - 1 := s.records[id - 1].(details := found)])
    else s
  }

  function Step(s: State, e: Event): State {
    match e
    case Read(id, found) => Settled(s, id, found)
    case Forget(id) => if id in s.pending && id !in s.reading then s.(pending := s.pending - {id}) else s
    case Stop => s.(stopped := true, calls := s.calls + [s.pending])
    case StopReturns(call) => if call < |s.calls| && s.calls[call] !! s.reading then s.(returned := s.returned + {call}) else s
    case _ => if s.stopped then s else Handled(s, e)
  }

  function Run(es: seq<Event>): State {
    FoldAll(Step, Installed, es)
  }

  // --- The observer object -----------------------------------------------------------------

  class NavigationObserver {
    var records: seq<Record>
    var requestStatuses: map<string, nat>
    var sequence: nat
    var frameNavigationCount: nat
    var mainFrameNavigationSeen: bool
    var stopped: bool
    var pendingDiagnostics: set<nat>
    var reading: set<nat>
    var calls: seq<set<nat>>
    var returned: set<nat>

    ghost function View(): State
      reads this
    {
      State(records, requestStatuses, sequence, frameNavigationCount, mainFrameNavigationSeen, stopped, reading,
            pendingDiagnostics, calls, returned)
    }

    constructor ()
      ensures View() == Installed
    {
      records, requestStatuses, sequence, frameNavigationCount := [], map[], 0, 0;
      mainFrameNavigationSeen, stopped, pendingDiagnostics, reading, calls, returned := false, false, {}, {}, [], {};
    }

    method Push(kind: Kind, url: string, status: Option<nat>, failure: Option<string>, message: Option<string>)
      returns (pushed: bool)
      modifies this
      ensures View() == Pushed(old(View()), kind, url, status, failure, message) && pushed == !old(stopped)
    {
      if stopped { return false; }
      var initial := kind == FrameNavigated && !mainFrameNavigationSeen;
      if initial { mainFrameNavigationSeen := true; }
      sequence := sequence + 1;
      records := records + [Record(sequence, initial, kind, url, status, failure, message, None)];
      return true;
    }

    method TrackDiagnostics(kind: Kind, url: string)
      modifies this
      ensures View() == Tracked(old(View()), kind, url)
    {
      var status := Lookup(requestStatuses, url);
      var pushed := Push(kind, url, status, None, None);
      if pushed {
        reading := reading + {sequence};
        pendingDiagnostics := pendingDiagnostics + {sequence};
      }
    }

    /** The handler of a page event; stop() has removed them all. */
    method Handle(e: Event)
      requires !e.Read? && !e.Forget? && !e.Stop? && !e.StopReturns?
      modifies this
      ensures View() == Step(old(View()), e)
    {
      if stopped { return; }
      match e
      case OnRequest(url, nav) => if nav { requestStatuses := requestStatuses[url := 0]; }
      case OnResponse(url, nav, code) => if nav { requestStatuses := requestStatuses[url := code]; }
      case OnRequestFailed(url, nav, failure) =>
        if nav { var _ := Push(RequestFailed, url, Lookup(requestStatuses, url), failure, None); }
      case OnFrameNavigated(url, main) =>
        if main {
          frameNavigationCount := frameNavigationCount + 1;
          TrackDiagnostics(FrameNavigated, url);
        }
      case OnLoad(url) => TrackDiagnostics(Load, url);
      case OnPageError(url, message) => var _ := Push(PageError, url, None, None, Some(message));
      case OnConsole(url, severe, message) => if severe { var _ := Push(Console, url, None, None, Some(message)); }
    }

    /** A read settles: what it found is merged into its record. */
    method Settle(id: nat, found: Option<Details>)
      modifies this
      ensures View() == Step(old(View()), Read(id, found))
    {
      if id in reading && 1 <= id <= |records| {
        reading := reading - {id};
        if found != None { records := records[id - 1 := records[id - 1].(details := found)]; }
      }
    }

    method Drop(id: nat)
      modifies this
      ensures View() == Step(old(View()), Forget(id))
    {
      if id in pendingDiagnostics && id !in reading { pendingDiagnostics := pendingDiagnostics - {id}; }
    }

    /** The synchronous part of stop(): from here on it waits for what is pending now. */
    method BeginStop() returns (call: nat)
      modifies this
      ensures View() == Step(old(View()), Stop) && call == |old(calls)|
    {
      stopped := true;
      call := |calls|;
      calls := calls + [pendingDiagnostics];
    }

    /** A stop() comes back once the reads it waits for have settled. */
    method EndStop(call: nat)
      modifies this
      ensures View() == Step(old(View()), StopReturns(call))
    {
      if call < |calls| && calls[call] !! reading { returned := returned + {call}; }
    }

    method DriveOne(e: Event)
      modifies this
      ensures View() == Step(old(View()), e)
    {
      match e
      case Read(id, found) => Settle(id, found);
      case Forget(id) => Drop(id);
      case Stop => var _ := BeginStop();
      case StopReturns(call) => EndStop(call);
      case _ => Handle(e);
    }

    /** Any run of the observer, from its installation. */
    method Drive(es: seq<Event>)
      requires View() == Installed
      modifies this
      ensures View() == Run(es)
    {
      hide Step;
      for n := 0 to |es|
        invariant View() == Run(es[..n])
      {
        assert es[..n + 1] == es[..n] + [es[n]];
        FoldAllPush(Step, Installed, es[..n], es[n]);
        DriveOne(es[n]);
      }
      assert es[..|es|] == es;
    }
  }

  // --- Every run -------------------------------------------------------------------------------

  function Navigations(rs: seq<Record>): nat {
    if rs == [] then 0 else Navigations(rs[..|rs| - 1]) + if rs[|rs| - 1].kind == FrameNavigated then 1 else 0
  }

  /** Numbered 1..n in order, and exactly the first navigation flagged initial. */
  ghost predicate Ordered(rs: seq<Record>) {
    forall i {:trigger rs[i]} :: 0 <= i < |rs| ==>
      rs[i].sequence == i + 1 && (rs[i].initial <==> rs[i].kind == FrameNavigated && Navigations(rs[..i]) == 0)
  }

  ghost predicate Numbered(s: State) {
    && Ordered(s.records) && s.sequence == |s.records|
    && s.navigations == Navigations(s.records) && (s.seen <==> s.navigations > 0)
  }

  /** Reads under way belong to records, are all pending, and every stop() waits for the ones still under way. */
  ghost predicate Waiting(s: State) {
    && (forall id :: id in s.reading ==> 1 <= id <= |s.records| && id in s.pending)
    && (s.stopped <==> s.calls != [])
    && (forall c :: 0 <= c < |s.calls| ==> s.reading <= s.calls[c])
    && (forall c :: c in s.returned ==> c < |s.calls| && s.reading == {})
  }

  lemma NavigationsPush(rs: seq<Record>, r: Record)
    ensures Navigations(rs + [r]) == Navigations(rs) + if r.kind == FrameNavigated then 1 else 0
  {
    assert (rs + [r])[..|rs|] == rs;
  }

  lemma OrderedPush(rs: seq<Record>, r: Record)
    requires Ordered(rs) && r.sequence == |rs| + 1
    requires r.initial <==> r.kind == FrameNavigated && Navigations(rs) == 0
    ensures Ordered(rs + [r])
  {
    hide Navigations;
    var t := rs + [r];
    assert t[..|rs|] == rs;
    assert forall i {:trigger t[i]} :: 0 <= i < |rs| ==> t[i] == rs[i] && t[..i] == rs[..i];
  }

  /** The same records, except for the details merged into them. */
  ghost predicate SameIdentity(rs: seq<Record>, qs: seq<Record>) {
    |rs| == |qs| && forall i :: 0 <= i < |rs| ==> qs[i] == rs[i].(details := qs[i].details)
  }

  lemma {:induction false} NavigationsSame(rs: seq<Record>, qs: seq<Record>)
    requires SameIdentity(rs, qs)
    ensures Navigations(rs) == Navigations(qs)
  {
    if rs != [] {
      assert qs[|rs| - 1].kind == rs[|rs| - 1].kind;
      NavigationsSame(rs[..|rs| - 1], qs[..|qs| - 1]);
    }
  }

  lemma OrderedSame(rs: seq<Record>, qs: seq<Record>)
    requires SameIdentity(rs, qs) && Ordered(rs)
    ensures Ordered(qs)
  {
    forall i {:trigger qs[i]} | 0 <= i < |qs|
      ensures qs[i].sequence == i + 1 && (qs[i].initial <==> qs[i].kind == FrameNavigated && Navigations(qs[..i]) == 0)
    {
      NavigationsSame(rs[..i], qs[..i]);
      assert rs[i].sequence == i + 1;
    }
  }

  lemma PushKeeps(s: State, kind: Kind, url: string, status: Option<nat>, failure: Option<string>, message: Option<string>)
    requires Numbered(s) && !s.stopped
    ensures var t := Pushed(s, kind, url, status, failure, message);
            Numbered(t.(navigations := if kind == FrameNavigated then s.navigations + 1 else s.navigations))
  {
    hide Navigations, Ordered;
    var r := Pushed(s, kind, url, status, failure, message).records[|s.records|];
    NavigationsPush(s.records, r);
    OrderedPush(s.records, r);
  }

  lemma SettleKeeps(s: State, id: nat, found: Option<Details>)
    ensures SameIdentity(s.records, Settled(s, id, found).records)
  {
  }

  lemma StepKeepsNumbered(s: State, e: Event)
    requires Numbered(s)
    ensures Numbered(Step(s, e))
  {
    hide Navigations, Ordered;
    if s.stopped || e.Read? {
      if e.Read? {
        SettleKeeps(s, e.id, e.found);
        NavigationsSame(s.records, Step(s, e).records);
        OrderedSame(s.records, Step(s, e).records);
      }
    } else {
      match e
      case OnRequestFailed(url, nav, failure) => PushKeeps(s, RequestFailed, url, Lookup(s.statuses, url), failure, None);
      case OnFrameNavigated(url, main) => PushKeeps(s, FrameNavigated, url, Lookup(s.statuses, url), None, None);
      case OnLoad(url) => PushKeeps(s, Load, url, Lookup(s.statuses, url), None, None);
      case OnPageError(url, message) => PushKeeps(s, PageError, url, None, None, Some(message));
      case OnConsole(url, severe, message) => PushKeeps(s, Console, url, None, None, Some(message));
      case _ =>
    }
  }

  lemma StepKeepsWaiting(s: State, e: Event)
    requires Waiting(s) && s.sequence == |s.records|
    ensures Waiting(Step(s, e))
  {
  }

  /** Every run: numbering, counting and the initial flag are as promised, and stop() waits for what it must. */
  lemma {:induction false} EveryRunNumbered(es: seq<Event>)
    ensures Numbered(Run(es)) && Waiting(Run(es))
  {
    if es != [] {
      hide Ordered, Navigations, Waiting, Step;
      EveryRunNumbered(es[..|es| - 1]);
      StepKeepsNumbered(Run(es[..|es| - 1]), es[|es| - 1]);
      StepKeepsWaiting(Run(es[..|es| - 1]), es[|es| - 1]);
    }
  }

  // --- Records keep their identity ---------------------------------------------------------------

  /** Later events append records and merge details, and change nothing else about a record. */
  ghost predicate Extends(rs: seq<Record>, qs: seq<Record>) {
    |rs| <= |qs| && SameIdentity(rs, qs[..|rs|])
  }

  lemma StepExtends(s: State, e: Event)
    ensures Extends(s.records, Step(s, e).records) && |Step(s, e).records| <= |s.records| + 1
  {
  }

  lemma ExtendsTransitive(a: seq<Record>, b: seq<Record>, c: seq<Record>)
    requires Extends(a, b) && Extends(b, c)
    ensures Extends(a, c)
  {
    forall i | 0 <= i < |a|
      ensures c[..|a|][i] == a[i].(details := c[..|a|][i].details)
    {
      assert b[..|a|][i] == a[i].(details := b[i].details) && c[..|b|][i] == b[i].(details := c[i].details);
    }
  }

  lemma {:induction false} IdentityPersists(es: seq<Event>, later: seq<Event>)
    ensures Extends(Run(es).records, Run(es + later).records)
  {
    if later == [] {
      assert es + later == es;
    } else {
      hide Extends, Step;
      var init := later[..|later| - 1];
      IdentityPersists(es, init);
      assert (es + later)[..|es + later| - 1] == es + init;
      StepExtends(Run(es + init), later[|later| - 1]);
      ExtendsTransitive(Run(es).records, Run(es + init).records, Run(es + later).records);
    }
  }

  // --- Statuses ------------------------------------------------------------------------------------

  /** What the url's history says: nothing yet, 0 since its last request, or the code of a later response. */
  function LastStatus(es: seq<Event>, url: string): Option<nat> {
    if es == [] then None
    else
      match es[|es| - 1]
      case OnRequest(u, true) => if u == url then Some(0) else LastStatus(es[..|es| - 1], url)
      case OnResponse(u, true, code) => if u == url then Some(code) else LastStatus(es[..|es| - 1], url)
      case _ => LastStatus(es[..|es| - 1], url)
  }

  lemma {:induction false} StatusesFollowHistory(es: seq<Event>, url: string)
    requires !Run(es).stopped
    ensures Lookup(Run(es).statuses, url) == LastStatus(es, url)
  {
    if es != [] {
      StatusesFollowHistory(es[..|es| - 1], url);
    }
  }

  /** The record an event adds carries the status its url had at that moment, whatever overlapped. */
  lemma NewRecordStatus(es: seq<Event>, e: Event)
    requires |Run(es + [e]).records| > |Run(es).records|
    ensures |Run(es + [e]).records| == |Run(es).records| + 1
    ensures var r := Run(es + [e]).records[|Run(es).records|];
            r.status == (if r.kind in {FrameNavigated, Load, RequestFailed} then LastStatus(es, r.url) else None) && r.details == None
  {
    var s := Run(es);
    FoldAllPush(Step, Installed, es, e);
    StepExtends(s, e);
    if !s.stopped { StatusesFollowHistory(es, Step(s, e).records[|s.records|].url); }
  }

  // --- Records follow the page's events ---------------------------------------------------------------

  predicate Stopped(es: seq<Event>) {
    exists i :: 0 <= i < |es| && es[i].Stop?
  }

  /** A read of the page is made for this event. */
  predicate Tracks(e: Event) {
    (e.OnFrameNavigated? && e.main) || e.OnLoad?
  }

  /** A main-frame navigation, a load, a failed main-frame navigation, a page error or a severe console message. */
  predicate Recorded(e: Event) {
    Tracks(e) || (e.OnRequestFailed? && e.navigation) || e.OnPageError? || (e.OnConsole? && e.severe)
  }

  /** The events that are recorded, in order: those before the observer is stopped. */
  function Recorders(es: seq<Event>): (ms: seq<nat>)
    ensures forall k :: 0 <= k < |ms| ==> ms[k] < |es|
  {
    if es == [] then []
    else
      var init := es[..|es| - 1];
      Recorders(init) + if Recorded(es[|es| - 1]) && !Stopped(init) then [|es| - 1] else []
  }

  /** What the first read number id found, and whether there was one. */
  function FirstRead(es: seq<Event>, from: nat, id: nat): (r: Option<Option<Details>>) {
    if |es| <= from + 1 then None
    else
      var before := FirstRead(es[..|es| - 1], from, id);
      if before.Some? then before else if es[|es| - 1].Read? && es[|es| - 1].id == id then Some(es[|es| - 1].found) else None
  }

  function KindOf(e: Event): Kind
    requires Recorded(e)
  {
    match e
    case OnFrameNavigated(_, _) => FrameNavigated
    case OnLoad(_) => Load
    case OnRequestFailed(_, _, _) => RequestFailed
    case OnPageError(_, _) => PageError
    case OnConsole(_, _, _) => Console
  }

  /** No main-frame navigation came before. */
  predicate FirstNavigation(es: seq<Event>, i: nat)
    requires i < |es|
  {
    es[i].OnFrameNavigated? && forall j :: 0 <= j < i ==> !(es[j].OnFrameNavigated? && es[j].main)
  }

  /** Record k, made by event i: its place, the event's own url, failure and message, the status of the url then, and what
      the first read made for it found. */
  function RecordOf(es: seq<Event>, i: nat, k: nat): Record
    requires i < |es| && Recorded(es[i])
  {
    var e := es[i];
    Record(k + 1, FirstNavigation(es, i), KindOf(e), e.url,
           if Tracks(e) || e.OnRequestFailed? then LastStatus(es[..i], e.url) else None,
           if e.OnRequestFailed? then e.failure else None,
           if e.OnPageError? || e.OnConsole? then Some(e.message) else None,
           if Tracks(e) && FirstRead(es, i, k + 1).Some? then FirstRead(es, i, k + 1).value else None)
  }

  /** The read made for record k has not settled. */
  predicate UnderWay(es: seq<Event>, i: nat, k: nat)
    requires i < |es|
  {
    Tracks(es[i]) && FirstRead(es, i, k + 1) == None
  }

  /** Record k is that of event i, and its read is under way or not as the events say. */
  predicate ShowsRecord(s: State, es: seq<Event>, i: nat, k: nat)
    requires i < |es| && k < |s.records|
  {
    Recorded(es[i]) && s.records[k] == RecordOf(es, i, k) && (k + 1 in s.reading <==> UnderWay(es, i, k))
  }

  /** The records and reads are those of the events. */
  ghost predicate Follows(s: State, es: seq<Event>) {
    var ms := Recorders(es);
    && |s.records| == |ms| && s.sequence == |ms| && (s.stopped <==> Stopped(es))
    && (forall id :: id in s.reading ==> 1 <= id <= |ms|)
    && (forall k :: 0 <= k < |ms| ==> ShowsRecord(s, es, ms[k], k))
  }

  lemma StoppedPush(es: seq<Event>, e: Event)
    ensures Stopped(es + [e]) <==> Stopped(es) || e.Stop?
  {
    var t := es + [e];
    assert t[|es|] == e && forall j :: 0 <= j < |es| ==> t[j] == es[j];
  }

  lemma RecordersPush(es: seq<Event>, e: Event)
    ensures Recorders(es + [e]) == Recorders(es) + if Recorded(e) && !Stopped(es) then [|es|] else []
  {
    assert (es + [e])[..|es|] == es;
  }

  lemma FirstReadPush(es: seq<Event>, e: Event, from: nat, id: nat)
    requires from < |es|
    ensures FirstRead(es + [e], from, id) ==
      if FirstRead(es, from, id).Some? then FirstRead(es, from, id) else if e.Read? && e.id == id then Some(e.found) else None
  {
    assert (es + [e])[..|es|] == es;
  }

  lemma RecordPush(es: seq<Event>, e: Event, i: nat, k: nat)
    requires i < |es| && Recorded(es[i])
    ensures (es + [e])[i] == es[i]
    ensures var r := RecordOf(es, i, k);
            RecordOf(es + [e], i, k)
            == if Tracks(es[i]) && FirstRead(es, i, k + 1) == None && e.Read? && e.id == k + 1 then r.(details := e.found) else r
  {
    var t := es + [e];
    assert t[i] == es[i] && t[..i] == es[..i] && forall j :: 0 <= j < |es| ==> t[j] == es[j];
    FirstReadPush(es, e, i, k + 1);
  }

  lemma {:induction false} NoNavigation(es: seq<Event>)
    ensures !Stopped(es) ==> (Run(es).seen <==> exists j :: 0 <= j < |es| && es[j].OnFrameNavigated? && es[j].main)
  {
    if es != [] {
      var init, e := es[..|es| - 1], es[|es| - 1];
      NoNavigation(init);
      assert init + [e] == es;
      StoppedPush(init, e);
      StoppedRun(init);
      assert forall j :: 0 <= j < |init| ==> init[j] == es[j];
      SeenStep(Run(init), e);
      hide Step;
      if e.OnFrameNavigated? && e.main { assert es[|es| - 1].main; }
    }
  }

  lemma SeenStep(s: State, e: Event)
    ensures Step(s, e).seen <==> s.seen || (!s.stopped && e.OnFrameNavigated? && e.main)
  {
  }

  lemma {:induction false} StoppedRun(es: seq<Event>)
    ensures Run(es).stopped <==> Stopped(es)
  {
    if es != [] {
      var init, e := es[..|es| - 1], es[|es| - 1];
      StoppedRun(init);
      assert init + [e] == es;
      StoppedPush(init, e);
      StopStep(Run(init), e);
      hide Step, Stopped;
    }
  }

  lemma StopStep(s: State, e: Event)
    ensures Step(s, e).stopped == (s.stopped || e.Stop?)
  {
  }

  /** The record an event makes. */
  lemma NewRecord(es: seq<Event>, e: Event)
    requires Recorded(e) && !Run(es).stopped && Run(es).sequence == |Run(es).records|
    ensures var s, t := Run(es), Step(Run(es), e);
            && t.records == s.records + [RecordOf(es + [e], |es|, |s.records|)] && t.sequence == s.sequence + 1 && !t.stopped
            && t.reading == s.reading + if Tracks(e) then {s.sequence + 1} else {}
  {
    var t, n := es + [e], |es|;
    assert t[n] == e && t[..n] == es && |t| == n + 1 && forall j :: 0 <= j < n ==> t[j] == es[j];
    StoppedRun(es);
    NoNavigation(es);
    StatusesFollowHistory(es, e.url);
    hide LastStatus, FoldAll, Stopped;
  }

  /** An old record, after one more event. */
  lemma OldRecord(es: seq<Event>, e: Event, s: State, i: nat, k: nat)
    requires i < |es| && k < |s.records| == s.sequence && ShowsRecord(s, es, i, k)
    ensures k < |Step(s, e).records| && ShowsRecord(Step(s, e), es + [e], i, k)
  {
    RecordPush(es, e, i, k);
    FirstReadPush(es, e, i, k + 1);
    var t := Step(s, e);
    assert (k + 1 in t.reading <==> k + 1 in s.reading && e != Read(k + 1, if e.Read? then e.found else None));
    assert t.records[k] == if e.Read? && e.id == k + 1 && k + 1 in s.reading && e.found != None then s.records[k].(details := e.found) else s.records[k];
    hide Step, FirstRead, Recorded;
    RecordDetails(es, i, k);
  }

  /** A record whose read is under way has no details yet. */
  lemma RecordDetails(es: seq<Event>, i: nat, k: nat)
    requires i < |es| && Recorded(es[i])
    ensures FirstRead(es, i, k + 1) == None ==> RecordOf(es, i, k).details == None
  {
  }

  lemma StepFollows(es: seq<Event>, e: Event)
    requires Follows(Run(es), es)
    ensures Follows(Step(Run(es), e), es + [e])
  {
    var s, t, ms := Run(es), Step(Run(es), e), Recorders(es);
    StoppedPush(es, e);
    RecordersPush(es, e);
    StepCounts(s, e);
    forall k | 0 <= k < |ms|
      ensures k < |t.records| && ShowsRecord(t, es + [e], ms[k], k)
    {
      OldRecord(es, e, s, ms[k], k);
    }
    if Recorded(e) && !Stopped(es) { NewShown(es, e); }
    hide Step, ShowsRecord, Stopped, Recorders, Recorded, Run;
  }

  lemma StepCounts(s: State, e: Event)
    requires s.sequence == |s.records|
    ensures var t, one := Step(s, e), if Recorded(e) && !s.stopped then 1 else 0;
            && t.sequence == |t.records| == |s.records| + one && t.stopped == (s.stopped || e.Stop?)
            && forall id :: id in t.reading ==> id in s.reading || (one == 1 && id == t.sequence)
  {
  }

  lemma NewShown(es: seq<Event>, e: Event)
    requires Recorded(e) && !Stopped(es) && Follows(Run(es), es)
    ensures var s, t := Run(es), Step(Run(es), e);
            |t.records| == |s.records| + 1 && ShowsRecord(t, es + [e], |es|, |s.records|)
  {
    var s, n := Run(es), |Run(es).records|;
    NewRecord(es, e);
    assert (es + [e])[|es|] == e && |es + [e]| == |es| + 1;
    assert FirstRead(es + [e], |es|, n + 1) == None;
    hide Step, RecordOf, FirstRead, Recorded, Stopped, Recorders, FoldAll;
  }

  /** Over every run: the records are, in order, those of the recorded events before the observer is stopped, each with
      what the first read made for it found; and the reads under way are those made and not settled. */
  lemma {:induction false} RecordsFollow(es: seq<Event>)
    ensures Follows(Run(es), es)
  {
    if es != [] {
      var init, e := es[..|es| - 1], es[|es| - 1];
      assert init + [e] == es;
      hide Step, Follows;
      RecordsFollow(init);
      StepFollows(init, e);
    }
  }

  /** A read is forgotten once it has settled. */
  predicate Forgotten(es: seq<Event>, from: nat, id: nat) {
    |es| > from + 1 &&
    var init, e := es[..|es| - 1], es[|es| - 1];
    Forgotten(init, from, id) || (e.Forget? && e.id == id && FirstRead(init, from, id).Some?)
  }

  ghost predicate Remembers(s: State, es: seq<Event>) {
    var ms := Recorders(es);
    && (forall id :: id in s.pending ==> 1 <= id <= |ms|)
    && (forall k :: 0 <= k < |ms| ==> (k + 1 in s.pending <==> Tracks(es[ms[k]]) && !Forgotten(es, ms[k], k + 1)))
  }

  lemma ForgottenPush(es: seq<Event>, e: Event, from: nat, id: nat)
    requires from < |es|
    ensures Forgotten(es + [e], from, id) <==> Forgotten(es, from, id) || (e.Forget? && e.id == id && FirstRead(es, from, id).Some?)
  {
    assert (es + [e])[..|es|] == es;
  }

  lemma PendingStep(s: State, e: Event, id: nat)
    requires s.sequence == |s.records|
    ensures id in Step(s, e).pending <==>
            || (id in s.pending && !(e == Forget(id) && id !in s.reading))
            || (!s.stopped && Tracks(e) && id == s.sequence + 1)
  {
  }

  /** Over every run the observer's own set of reads holds those made and not yet forgotten, which follows their settling. */
  lemma {:induction false} PendingFollows(es: seq<Event>)
    ensures Remembers(Run(es), es)
  {
    if es != [] {
      var init, e := es[..|es| - 1], es[|es| - 1];
      assert init + [e] == es;
      PendingFollows(init);
      RecordsFollow(init);
      var s, ms := Run(init), Recorders(init);
      RecordersPush(init, e);
      forall id ensures id in Run(es).pending <==>
                        || (id in s.pending && !(e == Forget(id) && id !in s.reading))
                        || (!s.stopped && Tracks(e) && id == s.sequence + 1) { PendingStep(s, e, id); }
      hide Step, Stopped, RecordOf, Recorders, FirstRead;
      forall k | 0 <= k < |Recorders(es)|
        ensures k + 1 in Run(es).pending <==> Tracks(es[Recorders(es)[k]]) && !Forgotten(es, Recorders(es)[k], k + 1)
      {
        if k < |ms| {
          assert ShowsRecord(s, init, ms[k], k) && init[ms[k]] == es[ms[k]];
          ForgottenPush(init, e, ms[k], k + 1);
        }
      }
    }
  }

  /** What was pending at each call of stop(), in order. */
  function Waits(es: seq<Event>): seq<set<nat>> {
    if es == [] then []
    else Waits(es[..|es| - 1]) + if es[|es| - 1].Stop? then [Run(es[..|es| - 1]).pending] else []
  }

  lemma {:induction false} CallsFollow(es: seq<Event>)
    ensures Run(es).calls == Waits(es)
  {
    if es != [] {
      CallsFollow(es[..|es| - 1]);
      CallsStep(Run(es[..|es| - 1]), es[|es| - 1]);
      hide Step;
    }
  }

  lemma CallsStep(s: State, e: Event)
    ensures Step(s, e).calls == s.calls + if e.Stop? then [s.pending] else []
  {
  }

  // --- stop() ------------------------------------------------------------------------------------------

  lemma StepAfterStop(s: State, e: Event)
    requires Waiting(s) && s.returned != {}
    ensures var t := Step(s, e); t.records == s.records && t.reading == {} && t.returned != {}
  {
  }

  /** Once a stop() has returned, every read has settled, none starts, and no record is added or changed again. */
  lemma {:induction false} StopIsFinal(es: seq<Event>, later: seq<Event>)
    requires Run(es).returned != {}
    ensures Run(es).reading == {}
    ensures var t := Run(es + later); t.records == Run(es).records && t.reading == {} && t.returned != {}
  {
    EveryRunNumbered(es);
    if later == [] {
      assert es + later == es;
    } else {
      hide Step, Numbered;
      var init := later[..|later| - 1];
      StopIsFinal(es, init);
      assert (es + later)[..|es + later| - 1] == es + init;
      EveryRunNumbered(es + init);
      StepAfterStop(Run(es + init), later[|later| - 1]);
    }
  }

  /** And it can return: a stop() comes back in the very step after the last read under way has settled. */
  lemma StopReturnsWhenSettled(es: seq<Event>, call: nat)
    requires call < |Run(es).calls|
    ensures Run(es).reading == {} <==> call in Run(es + [StopReturns(call)]).returned
  {
    EveryRunNumbered(es);
    FoldAllPush(Step, Installed, es, StopReturns(call));
  }
}
