/** Where a subagent's stream escapes what holds for the session's own: trimming between deltas, and dialogs that leak. */
module NestedLimits {
  import opened Options
  import opened Coalesce
  import opened Reset
  import opened Transcript

  // --- Over the budget ----------------------------------------------------------------

  /** Tools in flight, which are never evicted, and over them at most an open bubble. */
  predicate ToolsAndBubble(items: seq<Item>, tools: seq<Item>) {
    && (forall i :: 0 <= i < |tools| ==> RunningTool(tools[i]))
    && (items == tools || (|items| == |tools| + 1 && items[..|tools|] == tools && OpenBubble(items)))
  }

  lemma {:induction false} BubbleIsEvictable(tools: seq<Item>, bubble: Item)
    requires (forall i :: 0 <= i < |tools| ==> RunningTool(tools[i])) && bubble.Assistant?
    ensures FirstEvictable(tools + [bubble]) == |tools|
  {
    var items := tools + [bubble];
    if tools == [] {
      assert items == [bubble];
    } else {
      assert items[0] == tools[0] && items[1..] == tools[1..] + [bubble];
      BubbleIsEvictable(tools[1..], bubble);
    }
  }

  /** The bubble over the tools is evicted whole if the budget does not hold both. */
  lemma BubbleEvicted(r: Reducer, tools: seq<Item>, bubble: Item)
    requires (forall i :: 0 <= i < |tools| ==> RunningTool(tools[i])) && bubble.Assistant?
    requires r.size(tools) <= SUBAGENT_TRANSCRIPT_LIMIT < r.size(tools + [bubble])
    ensures r.Evict(tools + [bubble]) == (tools, true)
  {
    var items := tools + [bubble];
    BubbleIsEvictable(tools, bubble);
    assert items[..|tools|] + items[|tools| + 1..] == tools;
  }

  lemma DeltaOverTools(items: seq<Item>, tools: seq<Item>, e: Event)
    requires ToolsAndBubble(items, tools) && e.body.AssistantDelta?
    ensures var next := FoldItems(items, e.ts, e.body);
            |next| == |tools| + 1 && next[..|tools|] == tools && OpenBubble(next)
            && Bounded(next) == Bounded(tools) + [BoundItem(next[|tools|])]
  {
    var next := FoldItems(items, e.ts, e.body);
    assert |tools| > 0 ==> !OpenBubble(tools);
    assert next[..|tools|] == tools;
    assert Bounded(next)[..|tools|] == Bounded(tools);
  }

  lemma DeltaRetained(r: Reducer, s: State, h: string, tools: seq<Item>, e: Event)
    requires e.handle == Some(h) && e.body.AssistantDelta? && ToolsAndBubble(Stream(s, h).items, tools)
    requires r.size(Bounded(tools)) <= SUBAGENT_TRANSCRIPT_LIMIT && !WithinBudget(r, s, e)
    ensures Stream(r.Fold(s, e), h).items == Bounded(tools)
  {
    NestedFold(r, s, e);
    var next := Touched(s, e).items;
    DeltaOverTools(Stream(s, h).items, tools, e);
    hide FoldItems;
    assert forall i :: 0 <= i < |tools| ==> RunningTool(Bounded(tools)[i]);
    BubbleEvicted(r, Bounded(tools), BoundItem(next[|tools|]));
  }

  /**
   Beyond the budget the merge is not fold-equivalent, whatever tools are in flight: folded one by one, the first
   delta's bubble is evicted and the second delta survives in a bubble of its own; merged, both are gone.
   */
  lemma OverBudgetMergeDiverges(r: Reducer, s: State, h: string, tools: seq<Item>, a: Event, b: Event)
    requires a.handle == Some(h) && TryMerge(a, b).Some? && a.body.AssistantDelta?
    requires ToolsAndBubble(Stream(s, h).items, tools) && r.size(Bounded(tools)) <= SUBAGENT_TRANSCRIPT_LIMIT
    requires !WithinBudget(r, s, a) && !WithinBudget(r, s, TryMerge(a, b).value)
    requires r.size(Bounded(FoldItems(Bounded(tools), b.ts, b.body))) <= SUBAGENT_TRANSCRIPT_LIMIT
    ensures |Stream(r.Fold(r.Fold(s, a), b), h).items| == |tools| + 1
    ensures Stream(r.Fold(s, TryMerge(a, b).value), h).items == Bounded(tools)
  {
    DeltaRetained(r, s, h, tools, a);
    DeltaRetained(r, s, h, tools, TryMerge(a, b).value);
    var s1 := r.Fold(s, a);
    hide FoldItems;
    NestedFold(r, s1, b);
    assert ToolsAndBubble(Bounded(tools), Bounded(tools));
    DeltaOverTools(Bounded(tools), Bounded(tools), b);
    RetainWithinBudget(r, Touched(s1, b));
  }

  /** The characters of a transcript's texts and payloads: its JSON is no shorter. */
  function Characters(items: seq<Item>): nat {
    if items == [] then 0 else Characters(items[..|items| - 1]) + ItemCharacters(items[|items| - 1])
  }

  function ItemCharacters(it: Item): nat {
    match it
    case Assistant(_, text, thinking, _, _, _, _) => |text| + |thinking|
    case Tool(_, _, input, _, _, _, _, _, _, _) =>
      if input == None then 0 else if input.value.Text? then |input.value.text| else |input.value.json|
    case _ => 0
  }

  function Xs(n: nat): string {
    seq(n, _ => 'x')
  }

  /** The card of a subagent's tool that was started with a 60000 character payload. */
  const BigTool := Tool(Given("call"), "write", Some(Other(Xs(60000))), None, None, None, None, Running, "t", None)

  /**
   A log of three events that diverges: a tool with a large payload is in flight, 8000 characters are streamed and
   then one more. It does for every size that is no less than the characters and leaves the tool, alone and with the
   last character, within the budget.
   */
  lemma OverBudgetLog(r: Reducer)
    requires forall items :: Characters(items) <= r.size(items)
    requires r.size([BigTool]) <= SUBAGENT_TRANSCRIPT_LIMIT
    requires r.size([BigTool, Assistant(Bubble("t", 1), "y", "", true, "t", None, None)]) <= SUBAGENT_TRANSCRIPT_LIMIT
    ensures var start := Event("t", Some("sub"), ToolStarted("call", "write", Some(Other(Xs(60000)))));
            var a, b := Event("t", Some("sub"), AssistantDelta(Xs(8000), None, None)), Event("t", Some("sub"), AssistantDelta("y", None, None));
            var s := r.Fold(Initial, start);
            && TryMerge(a, b).Some? && |Stream(r.Fold(r.Fold(s, a), b), "sub").items| == 2
            && Stream(r.Fold(s, TryMerge(a, b).value), "sub").items == [BigTool]
  {
    var start := Event("t", Some("sub"), ToolStarted("call", "write", Some(Other(Xs(60000)))));
    var a, b := Event("t", Some("sub"), AssistantDelta(Xs(8000), None, None)), Event("t", Some("sub"), AssistantDelta("y", None, None));
    hide FoldItems, Bounded, WithinBudget, Characters, ToolsAndBubble;
    ToolStartedFirst(r, start);
    var s := r.Fold(Initial, start);
    Streamed(r, s, a, Xs(8000));
    Streamed(r, s, TryMerge(a, b).value, Xs(8000) + "y");
    BigToolBounded();
    LastCharacter(b);
    OverBudgetMergeDiverges(r, s, "sub", [BigTool], a, b);
  }

  lemma LastCharacter(b: Event)
    requires b == Event("t", Some("sub"), AssistantDelta("y", None, None))
    ensures Bounded(FoldItems([BigTool], b.ts, b.body)) == [BigTool, Assistant(Bubble("t", 1), "y", "", true, "t", None, None)]
  {
    assert "" + "y" == "y" && Suffix("y", 8192) == "y" && Suffix("", 8192) == "";
  }

  lemma BigToolBounded()
    ensures Bounded([BigTool]) == [BigTool] && ToolsAndBubble([BigTool], [BigTool])
  {
  }

  lemma ToolStartedFirst(r: Reducer, start: Event)
    requires start == Event("t", Some("sub"), ToolStarted("call", "write", Some(Other(Xs(60000)))))
    requires r.size([BigTool]) <= SUBAGENT_TRANSCRIPT_LIMIT
    ensures Stream(r.Fold(Initial, start), "sub").items == [BigTool]
  {
    BigToolBounded();
    assert FoldItems([], "t", start.body) == [BigTool];
    assert r.Evict([BigTool]) == ([BigTool], false);
  }

  /** Eight thousand characters more do not fit beside the tool. */
  lemma Streamed(r: Reducer, s: State, e: Event, text: string)
    requires (forall items :: Characters(items) <= r.size(items)) && Stream(s, "sub").items == [BigTool]
    requires e.handle == Some("sub") && e.ts == "t" && e.body.AssistantDelta? && e.body.text == text && 8000 <= |text| <= 8192
    requires e.body.channel != Some(Thinking)
    ensures !WithinBudget(r, s, e)
  {
    var bubble := Assistant(Bubble("t", 1), text, "", true, "t", e.body.entryId, None);
    var items := [BigTool, bubble];
    assert "" + text == text && Suffix(text, 8192) == text;
    assert Bounded(FoldItems([BigTool], e.ts, e.body)) == items;
    CharactersOfTwo(BigTool, bubble);
    assert Characters(items) >= 68000;
  }

  lemma CharactersOfTwo(a: Item, b: Item)
    ensures Characters([a, b]) == ItemCharacters(a) + ItemCharacters(b)
  {
    assert [a, b][..1] == [a] && [a][..0] == [];
    assert Characters([a]) == Characters([]) + ItemCharacters(a);
  }

  // --- Dialogs ----------------------------------------------------------------------------

  /** A dialog opened by a subagent joins the session's own, and resolving it on the subagent's stream does not close it. */
  lemma NestedDialogSticks(r: Reducer, s: State, h: string, ts: string, request: Request)
    requires request.Dialog?
    ensures var shown := r.Fold(s, Event(ts, Some(h), HostUiRequest(request)));
            && Pending(shown.meta.approvals, request.requestId)
            && r.Fold(shown, Event(ts, Some(h), HostUiResolved(request.requestId))).meta == shown.meta
  {
    var rs := s.meta.approvals + [request];
    assert rs[|s.meta.approvals|].requestId == request.requestId;
  }

  /** Resolving it on the session's stream does. */
  lemma {:induction false} ResolvedIsGone(rs: seq<Request>, id: string)
    ensures !Pending(Without(rs, id), id)
    ensures forall other :: other != id ==> (Pending(Without(rs, id), other) <==> Pending(rs, other))
  {
    if rs != [] {
      ResolvedIsGone(rs[1..], id);
      forall other | other != id
        ensures Pending(Without(rs, id), other) <==> Pending(rs, other)
      {
        PendingCons(rs[0], rs[1..], other);
        if rs[0].requestId != id { PendingCons(rs[0], Without(rs[1..], id), other); }
      }
      PendingCons(rs[0], Without(rs[1..], id), id);
      assert rs == [rs[0]] + rs[1..];
    }
  }

  /** A resolution leaves its dialog pending if and only if it came on a subagent's stream and the dialog was pending. */
  lemma ResolvedExactly(r: Reducer, s: State, e: Event)
    requires e.body.HostUiResolved?
    ensures Pending(r.Fold(s, e).meta.approvals, e.body.requestId) <==>
            e.handle.Some? && Pending(s.meta.approvals, e.body.requestId)
  {
    ResolvedIsGone(s.meta.approvals, e.body.requestId);
  }

  lemma PendingCons(x: Request, rs: seq<Request>, id: string)
    ensures Pending([x] + rs, id) <==> x.requestId == id || Pending(rs, id)
  {
    if Pending(rs, id) {
      var i :| 0 <= i < |rs| && rs[i].requestId == id;
      assert ([x] + rs)[i + 1].requestId == id;
    }
    if x.requestId == id { assert ([x] + rs)[0].requestId == id; }
  }
}
