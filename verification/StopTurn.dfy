/**
 Stopping a turn (abort, abortResult, settleStopOperation and abortRestoreText in client/src/lib/store.svelte.ts,
 client/src/lib/store-helpers.ts): a stop request is confirmed, refused or times out, and the prompt that Escape
 stopped comes back to the composer once its request is accepted. Requests are named by their counter.
 */
module StopTurn {
  import opened Logs
  import opened Options
  import opened Runs
  import opened Transcript

  datatype StopState = Stopping | Unconfirmed

  datatype Operation = Operation(request: nat, owner: string, state: StopState, activity: nat, error: Option<string>)

  datatype Restore = Restore(text: string, owner: string, request: nat)

  /**
   The session on screen with its transcript, the composer's draft, and the stop in progress. `timer` is the request
   the running confirmation timer was started for. `armed` and `restored` are the restores set up and carried out so far.
   */
  datatype Store = Store(
    session: Option<string>, items: seq<Item>, active: bool, activity: nat, lastError: Option<string>, draft: string,
    operation: Option<Operation>, pending: Option<Restore>, timer: Option<nat>, requests: nat,
    armed: seq<Restore>, restored: seq<Restore>)

  datatype Label =
    | Abort(escape: bool, online: bool)
    | TimerFires
    | Result(request: Option<nat>, accepted: bool, error: Option<string>)
    | Folded(session: Option<string>, items: seq<Item>, active: bool, progress: bool)
    | Edited(draft: string)   // typing, sending, a restored queue, another session's draft
    | Noted(error: Option<string>)   // something else reports an error, or clears it

  const NO_RESPONSE := "No response to the stop request — the agent may still be running."
  const NOT_SENT := "Pantoken couldn't send the stop request."

  // --- What Escape may give back ------------------------------------------------------------

  /** The characters that trimming a string removes. */
  predicate White(c: char) {
    || '\U{9}' <= c <= '\U{D}' || c in "\U{20}\U{A0}\U{1680}\U{2028}\U{2029}\U{202F}\U{205F}\U{3000}\U{FEFF}"
    || '\U{2000}' <= c <= '\U{200A}'
  }

  /** These are the white space and line terminators of ECMAScript, 25 characters in all. */
  lemma WhiteExactly(c: char)
    ensures White(c) <==> c in [
      '\U{9}', '\U{A}', '\U{B}', '\U{C}', '\U{D}', '\U{20}', '\U{A0}', '\U{1680}', '\U{2000}', '\U{2001}', '\U{2002}',
      '\U{2003}', '\U{2004}', '\U{2005}', '\U{2006}', '\U{2007}', '\U{2008}', '\U{2009}', '\U{200A}', '\U{2028}',
      '\U{2029}', '\U{202F}', '\U{205F}', '\U{3000}', '\U{FEFF}']
  {
  }

  predicate Blank(s: string) {
    forall i :: 0 <= i < |s| ==> White(s[i])
  }

  /** The turn has answered: a tool ran or answer text was shown. */
  predicate Answers(it: Item) {
    it.Tool? || (it.Assistant? && !Blank(it.text))
  }

  function RestoreText(items: seq<Item>): Option<string> {
    if items == [] then None
    else
      var last := items[|items| - 1];
      if last.User? then Some(last.prompt) else if Answers(last) then None else RestoreText(items[..|items| - 1])
  }

  /** The prompt to give back is the last one, and only while nothing has answered it. */
  lemma {:induction false} RestoresUnanswered(items: seq<Item>, text: string)
    ensures RestoreText(items) == Some(text) <==>
            exists i :: 0 <= i < |items| && items[i].User? && items[i].prompt == text
                        && forall j :: i < j < |items| ==> !items[j].User? && !Answers(items[j])
  {
    hide Answers;
    if items != [] {
      var init, n := items[..|items| - 1], |items| - 1;
      if !items[n].User? && !Answers(items[n]) {
        RestoresUnanswered(init, text);
        assert forall i :: 0 <= i < n ==> init[i] == items[i];
      } else if items[n].User? {
        assert 0 <= n < |items| && items[n].User?;
      }
    }
  }

  /** The two loops of `abortRestoreText`. */
  method AbortRestoreText(items: seq<Item>) returns (text: Option<string>)
    ensures text == RestoreText(items)
  {
    var at := |items|;
    while at > 0 && !items[at - 1].User?
      invariant 0 <= at <= |items|
      invariant forall j :: at <= j < |items| ==> !items[j].User?
    {
      at := at - 1;
    }
    if at == 0 {
      NoPrompt(items);
      return None;
    }
    for i := at to |items|
      invariant forall j :: at <= j < i ==> !Answers(items[j])
    {
      if Answers(items[i]) {
        Answered(items, i);
        return None;
      }
    }
    assert items[at - 1].User?;
    RestoresUnanswered(items, items[at - 1].prompt);
    return Some(items[at - 1].prompt);
  }

  lemma {:induction false} NoPrompt(items: seq<Item>)
    requires forall j :: 0 <= j < |items| ==> !items[j].User?
    ensures RestoreText(items) == None
  {
    if items != [] { NoPrompt(items[..|items| - 1]); }
  }

  lemma {:induction false} Answered(items: seq<Item>, i: nat)
    requires i < |items| && Answers(items[i]) && forall j :: i <= j < |items| ==> !items[j].User?
    ensures RestoreText(items) == None
  {
    hide Answers;
    if i < |items| - 1 { Answered(items[..|items| - 1], i); }
  }

  // --- What each step does ---------------------------------------------------------------------

  function Aborted(s: Store, escape: bool, online: bool): Store {
    if s.session == None || s.session.value == "" then s.(pending := None)
    else if s.operation.Some? && s.operation.value.owner == s.session.value && s.operation.value.state == Stopping then s
    else
      var id, owner := s.requests + 1, s.session.value;
      var text := if escape then RestoreText(s.items) else None;
      var t := s.(requests := id, timer := None);
      if !online then t.(pending := None)
      else
        var t := t.(operation := Some(Operation(id, owner, Stopping, s.activity, None)), timer := Some(id));
        if text == None then t.(pending := None)
        else t.(pending := Some(Restore(text.value, owner, id)), armed := s.armed + [Restore(text.value, owner, id)])
  }

  function MarkedUnconfirmed(s: Store, request: nat, message: string): Store {
    if s.operation.Some? && s.operation.value.request == request
    then s.(timer := None,
            operation := Some(s.operation.value.(state := Unconfirmed, activity := s.activity, error := Some(message))))
    else s
  }

  /** The restore half of an abort result. */
  function Restoring(s: Store, request: Option<nat>, accepted: bool): Store {
    if s.pending.Some? && request == Some(s.pending.value.request) then
      var t := s.(pending := None);
      if accepted && s.session == Some(s.pending.value.owner) && Blank(s.draft)
      then t.(draft := s.pending.value.text, restored := s.restored + [s.pending.value]) else t
    else s
  }

  function Resulted(s: Store, request: Option<nat>, accepted: bool, error: Option<string>): Store {
    var t := Restoring(s, request, accepted);
    if s.operation == None || request != Some(s.operation.value.request) then t
    else if !accepted
    then MarkedUnconfirmed(t, request.value, if error.Some? then error.value else NOT_SENT).(pending := None)
    else t.(timer := None, operation := None)
  }

  /** An unconfirmed stop ends when the turn makes progress; any stop ends when its turn does. */
  predicate Ends(o: Operation, active: bool, activity: nat) {
    !active || (o.state == Unconfirmed && activity > o.activity)
  }

  function Settling(s: Store): Store {
    var t := if s.pending.Some? && s.session != Some(s.pending.value.owner) then s.(pending := None) else s;
    if s.operation == None || s.session != Some(s.operation.value.owner) || !Ends(s.operation.value, s.active, s.activity) then t
    else
      var o := s.operation.value;
      t.(timer := None, operation := None, lastError := if o.state == Unconfirmed && s.lastError == o.error then None else s.lastError)
  }

  function Step(s: Store, l: Label): Store {
    match l
    case Abort(escape, online) => Aborted(s, escape, online)
    case TimerFires => if s.timer == None then s else MarkedUnconfirmed(s.(timer := None), s.timer.value, NO_RESPONSE)
    case Result(request, accepted, error) => Resulted(s, request, accepted, error)
    case Folded(session, items, active, progress) =>
      Settling(s.(session := session, items := items, active := active, activity := if progress then s.activity + 1 else s.activity))
    case Edited(draft) => s.(draft := draft)
    case Noted(error) => s.(lastError := error)
  }

  function Run(ls: seq<Label>): Store {
    FoldAll(Step, Fresh, ls)
  }

  const Fresh := Store(None, [], false, 0, None, "", None, None, None, 0, [], [])

  // --- The store's methods -------------------------------------------------------------------

  class StopControl {
    var session: Option<string>
    var items: seq<Item>
    var active: bool
    var activity: nat
    var lastError: Option<string>
    var draft: string
    var operation: Option<Operation>
    var pending: Option<Restore>
    var timer: Option<nat>
    var requests: nat
    var armed: seq<Restore>
    var restored: seq<Restore>

    ghost function View(): Store
      reads this
    {
      Store(session, items, active, activity, lastError, draft, operation, pending, timer, requests, armed, restored)
    }

    constructor ()
      ensures View() == Fresh
    {
      session, items, active, activity, lastError, draft := None, [], false, 0, None, "";
      operation, pending, timer, requests, armed, restored := None, None, None, 0, [], [];
    }

    method AbortTurn(escape: bool, online: bool)
      modifies this
      ensures View() == Step(old(View()), Abort(escape, online))
    {
      hide RestoreText;
      if session == None || session.value == "" {
        pending := None;
        return;
      }
      if operation.Some? && operation.value.owner == session.value && operation.value.state == Stopping { return; }
      timer := None;
      requests := requests + 1;
      var text := None;
      if escape { text := AbortRestoreText(items); }
      Request(text, online);
    }

    /** The new request goes out, with the prompt to restore if there is one; offline it does not. */
    method Request(text: Option<string>, online: bool)
      requires session.Some?
      modifies this`pending, this`armed, this`operation, this`timer
      ensures online && text.Some? ==> pending == Some(Restore(text.value, session.value, requests))
      ensures !online || text == None ==> pending == None
      ensures armed == if pending.Some? then old(armed) + [pending.value] else old(armed)
      ensures operation == if online then Some(Operation(requests, session.value, Stopping, activity, None)) else old(operation)
      ensures timer == if online then Some(requests) else old(timer)
    {
      pending := if text.Some? then Some(Restore(text.value, session.value, requests)) else None;
      if !online {
        pending := None;
        return;
      }
      if pending.Some? { armed := armed + [pending.value]; }
      operation := Some(Operation(requests, session.value, Stopping, activity, None));
      timer := Some(requests);
    }

    method MarkUnconfirmed(request: nat, message: string)
      modifies this`operation, this`timer
      ensures View() == MarkedUnconfirmed(old(View()), request, message)
    {
      if operation == None || operation.value.request != request { return; }
      timer := None;
      operation := Some(operation.value.(state := Unconfirmed, activity := activity, error := Some(message)));
    }

    method OnTimer()
      modifies this
      ensures View() == Step(old(View()), TimerFires)
    {
      if timer.Some? {
        var request := timer.value;
        timer := None;
        MarkUnconfirmed(request, NO_RESPONSE);
      }
    }

    method OnResult(request: Option<nat>, accepted: bool, error: Option<string>)
      modifies this
      ensures View() == Step(old(View()), Result(request, accepted, error))
    {
      hide Blank;
      if pending.Some? {
        var p := pending.value;
        if request == Some(p.request) {
          pending := None;
          if accepted && session == Some(p.owner) && Blank(draft) {
            draft := p.text;
            restored := restored + [p];
          }
        }
      }
      if operation == None || request != Some(operation.value.request) { return; }
      if !accepted {
        MarkUnconfirmed(operation.value.request, if error.Some? then error.value else NOT_SENT);
        pending := None;
      } else {
        timer := None;
        operation := None;
      }
    }

    /** A seed or an event is folded: the session on screen changes, and the stop is reconciled with it. */
    method OnFolded(session: Option<string>, items: seq<Item>, active: bool, progress: bool)
      modifies this
      ensures View() == Step(old(View()), Folded(session, items, active, progress))
    {
      this.session, this.items, this.active := session, items, active;
      if progress { activity := activity + 1; }
      SettleStopOperation();
    }

    /** Any run of the store, from its start. */
    method Drive(ls: seq<Label>)
      requires View() == Fresh
      modifies this
      ensures View() == Run(ls)
    {
      hide Step;
      for n := 0 to |ls|
        invariant View() == Run(ls[..n])
      {
        assert ls[..n + 1] == ls[..n] + [ls[n]];
        FoldAllPush(Step, Fresh, ls[..n], ls[n]);
        DriveOne(ls[n]);
      }
      assert ls[..|ls|] == ls;
    }

    method DriveOne(l: Label)
      modifies this
      ensures View() == Step(old(View()), l)
    {
      match l
      case Abort(escape, online) => AbortTurn(escape, online);
      case TimerFires => OnTimer();
      case Result(request, accepted, error) => OnResult(request, accepted, error);
      case Folded(session, items, active, progress) => OnFolded(session, items, active, progress);
      case Edited(text) => draft := text;
      case Noted(error) => lastError := error;
    }

    method SettleStopOperation()
      modifies this
      ensures View() == Settling(old(View()))
    {
      if pending.Some? && session != Some(pending.value.owner) { pending := None; }
      if operation == None || session != Some(operation.value.owner) { return; }
      var o := operation.value;
      if active {
        if !(o.state == Unconfirmed && activity > o.activity) { return; }
      }
      timer := None;
      operation := None;
      if o.state == Unconfirmed && lastError == o.error { lastError := None; }
    }
  }

  // --- What every run keeps ------------------------------------------------------------------------

  /** A pending restore belongs to the latest request and to the operation in progress, if there is one. */
  ghost predicate Current(s: Store) {
    && (s.operation.Some? ==> s.operation.value.request <= s.requests)
    && (s.pending.Some? ==> s.pending.value.request == s.requests && s.pending.value in s.armed)
    && (s.pending.Some? && s.operation.Some? ==> s.operation.value.request == s.requests)
    && (s.operation.Some? && s.operation.value.state == Unconfirmed ==> s.operation.value.error.Some?)
  }

  ghost predicate Increasing(rs: seq<Restore>, bound: nat) {
    && (forall i :: 0 <= i < |rs| ==> 0 < rs[i].request <= bound)
    && (forall i, j :: 0 <= i < j < |rs| ==> rs[i].request < rs[j].request)
  }

  /** Restores are carried out at most once each, in the order of their requests, and only if armed. */
  ghost predicate Logged(s: Store) {
    && Increasing(s.armed, s.requests) && Increasing(s.restored, s.requests)
    && (forall r :: r in s.restored ==> r in s.armed)
    && (s.pending.Some? ==> forall r :: r in s.restored ==> r.request < s.pending.value.request)
  }

  ghost predicate Inv(s: Store) {
    Current(s) && Logged(s)
  }

  lemma IncreasingPush(rs: seq<Restore>, bound: nat, r: Restore)
    requires Increasing(rs, bound) && 0 < r.request && (forall x :: x in rs ==> x.request < r.request)
    ensures Increasing(rs + [r], if bound < r.request then r.request else bound)
  {
    assert forall i :: 0 <= i < |rs| ==> rs[i] in rs;
  }

  lemma AbortedKeeps(s: Store, escape: bool, online: bool)
    requires Inv(s)
    ensures Inv(Aborted(s, escape, online))
  {
    var t := Aborted(s, escape, online);
    assert forall r :: r in s.armed ==> r.request <= s.requests;
    assert forall r :: r in s.restored ==> r.request <= s.requests;
    if t.armed != s.armed { IncreasingPush(s.armed, s.requests, t.pending.value); }
  }

  lemma RestoringKeeps(s: Store, request: Option<nat>, accepted: bool)
    requires Inv(s)
    ensures var t := Restoring(s, request, accepted); Inv(t) && (request == Some(s.requests) ==> t.pending == None)
  {
    var t := Restoring(s, request, accepted);
    if t.restored != s.restored { IncreasingPush(s.restored, s.requests, s.pending.value); }
  }

  lemma ResultedKeeps(s: Store, request: Option<nat>, accepted: bool, error: Option<string>)
    requires Inv(s)
    ensures Inv(Resulted(s, request, accepted, error))
  {
    RestoringKeeps(s, request, accepted);
    hide Restoring, Increasing;
  }

  lemma SettlingKeeps(s: Store)
    requires Inv(s)
    ensures Inv(Settling(s))
  {
    hide Increasing;
  }

  lemma StepKeeps(s: Store, l: Label)
    requires Inv(s)
    ensures Inv(Step(s, l))
  {
    hide Increasing, Aborted, Resulted, Settling;
    match l
    case Abort(escape, online) => AbortedKeeps(s, escape, online);
    case Result(request, accepted, error) => ResultedKeeps(s, request, accepted, error);
    case Folded(session, items, active, progress) =>
      SettlingKeeps(s.(session := session, items := items, active := active, activity := if progress then s.activity + 1 else s.activity));
    case _ =>
  }

  lemma {:induction false} EveryRunCurrent(ls: seq<Label>)
    ensures Inv(Run(ls))
  {
    if ls != [] {
      hide Inv, Step;
      EveryRunCurrent(ls[..|ls| - 1]);
      StepKeeps(Run(ls[..|ls| - 1]), ls[|ls| - 1]);
    } else {
      assert Inv(Fresh);
    }
  }

  /** Step i of the run is an Escape that went out as this restore's request, with the prompt then unanswered. */
  ghost predicate ArmedAt(ls: seq<Label>, i: nat, r: Restore)
    requires i < |ls|
  {
    var s := Run(ls[..i]);
    ls[i] == Abort(true, true) && r.request == s.requests + 1 && s.session == Some(r.owner) && RestoreText(s.items) == Some(r.text)
  }

  /** Step j of the run is the acceptance of this restore's request. */
  ghost predicate AcceptedAt(ls: seq<Label>, j: nat, r: Restore)
    requires j < |ls|
  {
    ls[j].Result? && ls[j].accepted && ls[j].request == Some(r.request)
  }

  lemma ArmStep(s: Store, l: Label)
    ensures Step(s, l).armed == s.armed ||
            (l == Abort(true, true) && s.session.Some? && RestoreText(s.items).Some?
             && Step(s, l).armed == s.armed + [Restore(RestoreText(s.items).value, s.session.value, s.requests + 1)])
  {
    hide RestoreText;
  }

  lemma RestoreStep(s: Store, l: Label)
    ensures Step(s, l).restored == s.restored ||
            (l.Result? && l.accepted && s.pending.Some? && l.request == Some(s.pending.value.request)
             && Step(s, l).restored == s.restored + [s.pending.value])
  {
    hide Blank;
  }

  lemma {:induction false} ArmedBy(ls: seq<Label>, r: Restore) returns (i: nat)
    requires r in Run(ls).armed
    ensures i < |ls| && ArmedAt(ls, i, r)
  {
    var init, l := ls[..|ls| - 1], ls[|ls| - 1];
    hide Step;
    ArmStep(Run(init), l);
    if r in Run(init).armed {
      i := ArmedBy(init, r);
      assert init[..i] == ls[..i];
    } else {
      i := |ls| - 1;
    }
  }

  /** Over the steps of a whole run: each prompt given back was set up by one Escape, with the text of the transcript
      then, and given back by a later acceptance of that very request. */
  lemma {:induction false} RestoredBy(ls: seq<Label>, r: Restore) returns (i: nat, j: nat)
    requires r in Run(ls).restored
    ensures i < j < |ls| && ArmedAt(ls, i, r) && AcceptedAt(ls, j, r)
  {
    var init, l := ls[..|ls| - 1], ls[|ls| - 1];
    hide Step, Logged;
    RestoreStep(Run(init), l);
    if r in Run(init).restored {
      i, j := RestoredBy(init, r);
      assert init[..i] == ls[..i];
    } else {
      EveryRunCurrent(init);
      i := ArmedBy(init, r);
      j := |ls| - 1;
      assert init[..i] == ls[..i];
    }
  }

  /** And at most once: the restores of a run have distinct requests, so no Escape's prompt is given back twice. */
  lemma RestoredAtMostOnce(ls: seq<Label>)
    ensures var rs := Run(ls).restored;
            forall i, j :: 0 <= i < j < |rs| ==> rs[i].request != rs[j].request
  {
    EveryRunCurrent(ls);
  }

  /**
   After any run, a step brings a prompt back if and only if it is an accepted result for the latest request, that
   request is an Escape still waiting, its session is on screen and the draft is blank at that moment.
   */
  lemma RestoresExactly(ls: seq<Label>, l: Label)
    ensures var s := Run(ls);
            Run(ls + [l]).restored != s.restored <==>
            && l.Result? && l.accepted && l.request == Some(s.requests)
            && s.pending.Some? && s.session == Some(s.pending.value.owner) && Blank(s.draft)
    ensures var s, t := Run(ls), Run(ls + [l]);
            t.restored != s.restored ==> s.pending.Some? && t.draft == s.pending.value.text && t.pending == None
  {
    hide Blank;
    EveryRunCurrent(ls);
    FoldAllPush(Step, Fresh, ls, l);
    var s := Run(ls);
    assert s.pending.Some? ==> s.restored + [s.pending.value] != s.restored;
  }

  /** Only Escape arms, only while the last prompt is unanswered, and only a request that went out. */
  lemma ArmedExactly(s: Store, l: Label)
    ensures Step(s, l).armed != s.armed <==>
            && l.Abort? && l.escape && l.online && RestoreText(s.items).Some? && s.session.Some? && s.session.value != ""
            && !(s.operation.Some? && s.operation.value.owner == s.session.value && s.operation.value.state == Stopping)
  {
    hide RestoreText;
    assert forall r: Restore :: s.armed + [r] != s.armed;
  }

  /** Of the stop protocol's own steps only a restore, into a blank draft, changes the draft. */
  lemma DraftChangesOnly(s: Store, l: Label)
    requires Step(s, l).draft != s.draft
    ensures l.Edited? || (s.pending.Some? && Blank(s.draft) && Step(s, l).restored == s.restored + [s.pending.value])
  {
    hide Blank;
  }

  /** What was in the composer at Escape does not count: cleared before the result, it is filled with the old prompt. */
  lemma ClearedDraftIsFilled(s: Store)
    requires s.session.Some? && s.session.value != "" && s.operation == None && RestoreText(s.items).Some?
    ensures var t := FoldAll(Step, s, [Abort(true, true), Edited(""), Result(Some(s.requests + 1), true, None)]);
            t.draft == RestoreText(s.items).value && |t.restored| == |s.restored| + 1
  {
    hide RestoreText;
    FoldAllThree(Step, s, Abort(true, true), Edited(""), Result(Some(s.requests + 1), true, None));
  }

  /** A timeout drops nothing: an accepted result that arrives late still brings the prompt back. */
  lemma LateAcceptanceRestores(s: Store)
    requires Inv(s) && s.pending.Some? && s.session == Some(s.pending.value.owner) && Blank(s.draft)
    ensures Step(Step(s, TimerFires), Result(Some(s.requests), true, None)).draft == s.pending.value.text
  {
    hide Blank, Logged;
  }

  /** A result for any earlier request leaves the pending restore and the draft alone. */
  lemma SupersededIgnored(s: Store, request: Option<nat>, accepted: bool, error: Option<string>)
    requires Inv(s) && s.pending.Some? && request != Some(s.requests)
    ensures var t := Step(s, Result(request, accepted, error)); t.pending == s.pending && t.draft == s.draft
  {
  }

  // --- The life of a stop ---------------------------------------------------------------------------

  /** A step begins a stop if and only if it is an abort that goes out, in a session with no stop being confirmed. The stop
      is that session's, under a new request, and is timed. */
  lemma BeginsExactly(ls: seq<Label>, l: Label)
    ensures var s, t := Run(ls), Run(ls + [l]);
            && ((t.operation.Some? && t.operation.value.request == s.requests + 1) <==>
                && l.Abort? && l.online && s.session.Some? && s.session.value != ""
                && !(s.operation.Some? && s.operation.value.owner == s.session.value && s.operation.value.state == Stopping))
            && (t.operation.Some? && t.operation.value.request == s.requests + 1 ==>
                && t.operation.value.owner == s.session.value && t.operation.value.state == Stopping
                && t.operation.value.activity == s.activity && t.timer == Some(s.requests + 1))
  {
    EveryRunCurrent(ls);
    FoldAllPush(Step, Fresh, ls, l);
    hide RestoreText, Blank, Logged;
  }

  /** Every attempt to stop is counted, sent or not, unless there is no session or one is being confirmed there. */
  lemma CountsExactly(s: Store, l: Label)
    ensures Step(s, l).requests == s.requests + if
              && l.Abort? && s.session.Some? && s.session.value != ""
              && !(s.operation.Some? && s.operation.value.owner == s.session.value && s.operation.value.state == Stopping) then 1 else 0
  {
    hide RestoreText, Blank;
  }

  /** The step answers the stop's request. */
  predicate Replies(l: Label, o: Operation, accepted: bool) {
    l.Result? && l.request == Some(o.request) && l.accepted == accepted
  }

  /** The turn of the stop's session has ended, or has gone on past an unconfirmed stop. */
  predicate Overtakes(s: Store, l: Label, o: Operation) {
    && l.Folded? && l.session == Some(o.owner)
    && (!l.active || (o.state == Unconfirmed && s.activity + (if l.progress then 1 else 0) > o.activity))
  }

  /** After any run a step ends the stop in progress if and only if it is the acceptance of its request, or an event of its
      own session with the turn inactive, or one with activity beyond what the unconfirmed stop had recorded. No timer is
      left then. */
  lemma EndsExactly(s: Store, l: Label)
    requires s.operation.Some?
    ensures var o, t := s.operation.value, Step(s, l);
            && (t.operation == None <==> Replies(l, o, true) || Overtakes(s, l, o))
            && (t.operation == None ==> t.timer == None)
  {
    hide RestoreText, Blank;
  }

  /** So no stop of a session is left once its turn is seen inactive. */
  lemma InactiveLeavesNone(ls: seq<Label>, a: string, items: seq<Item>, progress: bool)
    ensures var t := Run(ls + [Folded(Some(a), items, false, progress)]);
            t.operation.Some? ==> t.operation.value.owner != a
  {
    FoldAllPush(Step, Fresh, ls, Folded(Some(a), items, false, progress));
    var s := Run(ls);
    if s.operation.Some? { EndsExactly(s, Folded(Some(a), items, false, progress)); }
  }

  /** A step leaves the stop in progress in place, unchanged or unconfirmed, if it neither ends it nor begins another. It is
      unconfirmed from when its own timer fires or its request is refused, says why, and records the activity by then. */
  lemma ChangesExactly(s: Store, l: Label)
    requires s.operation.Some? && !Replies(l, s.operation.value, true) && !Overtakes(s, l, s.operation.value)
    requires l.Abort? ==> Step(s, l).operation == s.operation
    ensures var o, t := s.operation.value, Step(s, l);
            t.operation == Some(
              if Replies(l, o, false)
              then Operation(o.request, o.owner, Unconfirmed, s.activity,
                             Some(if l.error.Some? then l.error.value else "Pantoken couldn't send the stop request."))
              else if l.TimerFires? && s.timer == Some(o.request)
              then Operation(o.request, o.owner, Unconfirmed, s.activity,
                             Some("No response to the stop request — the agent may still be running."))
              else o)
  {
    hide RestoreText, Blank;
  }

  /** In every run a running timer is that of the stop being confirmed. */
  lemma {:induction false} TimerIsTheStops(ls: seq<Label>)
    ensures var s := Run(ls);
            s.timer.Some? ==> s.operation.Some? && s.operation.value.state == Stopping && s.timer == Some(s.operation.value.request)
  {
    if ls != [] {
      TimerIsTheStops(ls[..|ls| - 1]);
      hide RestoreText, Blank;
    }
  }

  /** A pending restore stays if and only if no result for its request arrives, no stop is tried except while one is being
      confirmed in the session, and its session stays on screen. */
  lemma PendingStaysExactly(s: Store, l: Label)
    requires Inv(s) && s.pending.Some?
    ensures Step(s, l).pending == s.pending <==>
            match l
            case Abort(_, _) => s.session.Some? && s.session.value != "" && s.operation.Some? && s.operation.value.owner == s.session.value
                                && s.operation.value.state == Stopping
            case Result(request, _, _) => request != Some(s.pending.value.request)
            case Folded(session, _, _, _) => session == Some(s.pending.value.owner)
            case _ => true
  {
    hide RestoreText, Blank, Logged;
  }

  /** The error on screen changes when something else reports one, and when a stop is overtaken whose own error it is. */
  lemma ErrorExactly(s: Store, l: Label)
    ensures Step(s, l).lastError ==
            if l.Noted? then l.error
            else if s.operation.Some? && Overtakes(s, l, s.operation.value) && s.operation.value.state == Unconfirmed
                    && s.lastError == s.operation.value.error
            then None else s.lastError
  {
    hide RestoreText, Blank;
  }

  // --- Every stop in progress is timed, except ----------------------------------------------------

  /** A stop that is being confirmed has its timer running, so it will become retryable. */
  ghost predicate Timed(s: Store) {
    s.operation.Some? && s.operation.value.state == Stopping ==> s.timer == Some(s.operation.value.request)
  }

  /** A stop tried offline in one session while another session's stop is being confirmed. */
  predicate Untimes(s: Store, l: Label) {
    && l.Abort? && !l.online && s.session.Some? && s.session.value != ""
    && s.operation.Some? && s.operation.value.state == Stopping && s.operation.value.owner != s.session.value
  }

  lemma UntimesExactly(s: Store, l: Label)
    requires Timed(s)
    ensures Timed(Step(s, l)) <==> !Untimes(s, l)
  {
    hide RestoreText, Blank;
  }

  /** In a run every stop being confirmed is timed throughout if and only if no offline attempt cuts its timer. */
  lemma TimedRuns(ls: seq<Label>)
    ensures GoodThroughout(Step, Timed, Fresh, ls) <==> NoBadStep(Step, Untimes, Fresh, ls)
  {
    assert Inv(Fresh);
    hide GoodThroughout, NoBadStep, Step, Untimes, Inv;
    forall s, l | Inv(s)
      ensures Inv(Step(s, l))
    {
      StepKeeps(s, l);
    }
    forall s, l | Timed(s)
      ensures Timed(Step(s, l)) <==> !Untimes(s, l)
    {
      UntimesExactly(s, l);
    }
    GoodRuns(Step, Inv, Timed, Untimes, Fresh, ls);
  }

  /**
   A run from the start that cuts a timer: a stop goes out in one session, the other is opened, and a stop is tried
   there in the moment the socket has closed and the page does not show it yet. Back in the first session the stop is
   still being confirmed, and no timer runs.
   */
  lemma TimerCut(a: string, b: string)
    requires a != "" && b != "" && a != b
    ensures var s := Run([Folded(Some(a), [], true, false), Abort(false, true), Folded(Some(b), [], true, false)]);
            var t := Step(Step(s, Abort(false, false)), Folded(Some(a), [], true, false));
            && Untimes(s, Abort(false, false))
            && t.session == Some(a) && t.timer == None && t.operation.Some? && t.operation.value.owner == a && t.operation.value.state == Stopping
  {
    hide FoldAll;
    FoldAllThree(Step, Fresh, Folded(Some(a), [], true, false), Abort(false, true), Folded(Some(b), [], true, false));
  }

  /** Once its timer is cut, a stop can no longer be retried from its own session. */
  lemma UntimedStopIsStuck(s: Store, escape: bool, online: bool)
    requires s.operation.Some? && s.operation.value.state == Stopping && s.timer == None
    requires s.session == Some(s.operation.value.owner) && s.session.value != ""
    ensures Step(s, Abort(escape, online)) == s && Step(s, TimerFires) == s
  {
  }
}
