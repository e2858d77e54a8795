/** Properties of the call log that the generator produces: how the
    conversation grows from call to call, when tools are offered, and how
    tool results pair with the tool calls that produced them. */
module Protocol {
  import opened Content
  import opened Requests
  import opened ToolRound
  import opened Generator

  /** Later requests keep the system text and extend the earlier conversation:
      the turns sent before are never changed, and each round adds one or two. */
  lemma {:induction false} ConversationOnlyGrows(calls: seq<Call>, tools: seq<ToolDef>, maxRounds: int,
                                                 dispatch: Dispatcher, j: nat, i: nat)
    requires Chained(calls, tools, maxRounds, dispatch)
    requires j <= i < |calls|
    ensures calls[i].request.system == calls[j].request.system
    ensures |calls[j].request.messages| + (i - j) <= |calls[i].request.messages| <= |calls[j].request.messages| + 2 * (i - j)
    ensures calls[i].request.messages[..|calls[j].request.messages|] == calls[j].request.messages
  {
    if j < i {
      ConversationOnlyGrows(calls, tools, maxRounds, dispatch, j, i - 1);
      assert LinkedAt(calls, i, tools, maxRounds, dispatch);
      var prev := calls[i - 1].request.messages;
      var turns := RoundTurns(calls[i - 1].outcome.response, dispatch);
      assert calls[i].request.messages == prev + turns;
      assert (prev + turns)[..|prev|] == prev;
      assert prev[..|calls[j].request.messages|] == calls[j].request.messages;
    }
  }

  /** Every request of a query carries the same system text and starts with the
      query itself as its first turn. */
  lemma QueryStaysFirst(calls: seq<Call>, prompt: string, query: string, history: Option<string>,
                        tools: seq<ToolDef>, maxRounds: int, dispatch: Dispatcher, i: nat)
    requires Chained(calls, tools, maxRounds, dispatch)
    requires i < |calls| && calls[0].request == InitialRequest(prompt, query, history, tools)
    ensures calls[i].request.system == SystemContent(prompt, history)
    ensures |calls[i].request.messages| >= 1 + i
    ensures calls[i].request.messages[0] == UserQuery(query)
  {
    ConversationOnlyGrows(calls, tools, maxRounds, dispatch, 0, i);
    assert calls[i].request.messages[..1][0] == calls[i].request.messages[0];
  }

  /** The loop goes on only after a reply that asked for tools: a failure or a
      reply with another stop reason ends the log. */
  lemma OnlyToolRequestsContinue(calls: seq<Call>, tools: seq<ToolDef>, maxRounds: int, dispatch: Dispatcher, i: nat)
    requires Chained(calls, tools, maxRounds, dispatch)
    requires i < |calls|
    ensures !AsksForTools(calls[i].outcome) ==> i == |calls| - 1
  {
    if i + 1 < |calls| {
      assert LinkedAt(calls, i + 1, tools, maxRounds, dispatch);
    }
  }

  /** Follow-up calls offer the tools while the round counter is below the bound;
      a call without tools is the one at the bound, and it is the last call. */
  lemma ToolOfferSchedule(calls: seq<Call>, tools: seq<ToolDef>, maxRounds: int, dispatch: Dispatcher, i: nat)
    requires Chained(calls, tools, maxRounds, dispatch)
    requires 1 <= i < |calls|
    ensures calls[i].request.offer == if i < maxRounds then Some(tools) else None
    ensures calls[i].request.offer.None? ==> i == maxRounds == |calls| - 1
  {
    assert LinkedAt(calls, i, tools, maxRounds, dispatch);
    if i + 1 < |calls| {
      assert LinkedAt(calls, i + 1, tools, maxRounds, dispatch);
    }
  }

  /** After a round whose reply asked for tools, the next request holds the
      reply as the assistant turn and then one result per requested tool call,
      in order, each under the id of its tool-use block and holding what the
      tool returned for that block's name and input. */
  lemma RoundResultsMatchCalls(calls: seq<Call>, tools: seq<ToolDef>, maxRounds: int, dispatch: Dispatcher, i: nat)
    requires Chained(calls, tools, maxRounds, dispatch)
    requires 1 <= i < |calls|
    ensures calls[i - 1].outcome.Reply?
    ensures var prev := calls[i - 1].request.messages;
            var invs := Invocations(calls[i - 1].outcome.response.content);
            var now := calls[i].request.messages;
            |now| == |prev| + (if invs == [] then 1 else 2) &&
            now[|prev|] == AssistantTurn(calls[i - 1].outcome.response.content) &&
            (invs != [] ==>
               now[|prev| + 1].ToolResultsTurn? &&
               |now[|prev| + 1].results| == |invs| &&
               forall k :: 0 <= k < |invs| ==>
                 now[|prev| + 1].results[k] == ToolResult(invs[k].id, dispatch(invs[k].name, invs[k].input)))
  {
    assert LinkedAt(calls, i, tools, maxRounds, dispatch);
  }

  /** Every tool call requested by a reply before the last one of the log is
      among the tool calls dispatched. */
  lemma DispatchedBeforeLastReply(calls: seq<Call>, i: nat, inv: Invocation)
    requires i < |calls| - 1 && calls[i].outcome.Reply?
    requires inv in Invocations(calls[i].outcome.response.content)
    ensures inv in AllInvocations(calls[..|calls| - 1])
  {
    InvocationsOfPrefix(calls[..|calls| - 1], i, inv);
  }

  /** The tool calls of the first `n + 1` replies are those of the first `n`
      followed by those of reply `n`. */
  lemma InvocationsUpTo(calls: seq<Call>, n: nat)
    requires n < |calls|
    ensures AllInvocations(calls[..n + 1]) ==
      AllInvocations(calls[..n]) + (if calls[n].outcome.Reply? then Invocations(calls[n].outcome.response.content) else [])
  {
    assert calls[..n + 1][..n] == calls[..n];
  }

  lemma {:induction false} InvocationsOfPrefix(calls: seq<Call>, i: nat, inv: Invocation)
    requires i < |calls| && calls[i].outcome.Reply?
    requires inv in Invocations(calls[i].outcome.response.content)
    ensures inv in AllInvocations(calls)
  {
    var last := |calls| - 1;
    if i < last {
      assert calls[..last][i] == calls[i];
      InvocationsOfPrefix(calls[..last], i, inv);
    }
  }
}
