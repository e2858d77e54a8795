/** The response generator: one provider call, and when the reply asks for
    tools and a tool manager is present, a bounded loop of tool rounds. Each
    round runs the requested tools, appends the assistant turn and the results
    turn, and calls the provider again, offering the tools while rounds remain
    and withholding them on the call that reaches the bound. */
module Generator {
  import opened Content
  import opened Extraction
  import opened Requests
  import opened ToolRound

  /** The stop reason with which a reply asks for tools. */
  const ToolUseReason: string := "tool_use"

  /** The answer given when a provider call inside the loop fails. */
  const ErrorPrefix: string := "Error during tool execution: "

  /** One provider call as logged: the request sent and what came back. */
  datatype Call = Call(request: Request, outcome: Outcome)

  /** What the caller gets: answer text, or the first call's failure, which
      propagates to the caller. */
  datatype Answer = Answered(text: string) | Raised(message: string)

  predicate AsksForTools(o: Outcome) {
    o.Reply? && o.response.stopReason == ToolUseReason
  }

  /** The most provider calls one query can make with `maxRounds` rounds. */
  function CallBound(maxRounds: int): nat {
    if maxRounds > 0 then maxRounds + 1 else 1
  }

  /** The tools the first request offered, or none when it offered none;
      follow-up calls offer these. */
  function OfferedTools(base: Request): (tools: seq<ToolDef>)
    ensures base.offer.Some? ==> tools == base.offer.value
    ensures base.offer.None? ==> tools == []
  {
    if base.offer.Some? then base.offer.value else []
  }

  /** Follow-up calls offer exactly the caller's tool list; an empty list
      stands for none. */
  lemma OfferedToolsOfFirstRequest(prompt: string, query: string, history: Option<string>, tools: seq<ToolDef>)
    ensures OfferedTools(InitialRequest(prompt, query, history, tools)) == tools
  {
  }

  /** The request made after the tool round that follows `prev`, once the round
      counter has reached `round`. */
  function FollowUp(prev: Call, round: int, tools: seq<ToolDef>, maxRounds: int, dispatch: Dispatcher): (next: Request)
    requires prev.outcome.Reply?
    ensures next.system == prev.request.system
    ensures |prev.request.messages| < |next.messages| <= |prev.request.messages| + 2
    ensures next.messages[..|prev.request.messages|] == prev.request.messages
    ensures next.messages[|prev.request.messages|] == AssistantTurn(prev.outcome.response.content)
    ensures next.offer.Some? <==> round < maxRounds
    ensures next.offer.Some? ==> next.offer.value == tools
  {
    Request(prev.request.system,
            prev.request.messages + RoundTurns(prev.outcome.response, dispatch),
            if round < maxRounds then Some(tools) else None)
  }

  /** The log of a query's calls is linked round by round: every call but the
      last got a reply asking for tools while the counter was below the bound,
      and the next request follows from it. */
  ghost predicate Chained(calls: seq<Call>, tools: seq<ToolDef>, maxRounds: int, dispatch: Dispatcher) {
    forall i :: 1 <= i < |calls| ==> LinkedAt(calls, i, tools, maxRounds, dispatch)
  }

  /** Call `i` is the follow-up of call `i - 1`. */
  ghost predicate LinkedAt(calls: seq<Call>, i: nat, tools: seq<ToolDef>, maxRounds: int, dispatch: Dispatcher)
    requires 1 <= i < |calls|
  {
    AsksForTools(calls[i - 1].outcome) && i <= maxRounds &&
    calls[i].request == FollowUp(calls[i - 1], i, tools, maxRounds, dispatch)
  }

  /** The outcome of each call after the first is the provider's scripted one. */
  ghost predicate Scripted(calls: seq<Call>, provider: Provider) {
    forall i :: 1 <= i < |calls| ==> calls[i].outcome == provider(i)
  }

  /** Appending the follow-up of the last call keeps the log linked and scripted. */
  lemma LogOneMore(calls: seq<Call>, next: Call, tools: seq<ToolDef>, maxRounds: int, dispatch: Dispatcher,
                   provider: Provider)
    requires calls != [] && Chained(calls, tools, maxRounds, dispatch) && Scripted(calls, provider)
    requires AsksForTools(calls[|calls| - 1].outcome) && |calls| <= maxRounds
    requires next.request == FollowUp(calls[|calls| - 1], |calls|, tools, maxRounds, dispatch)
    requires next.outcome == provider(|calls|)
    ensures Chained(calls + [next], tools, maxRounds, dispatch) && Scripted(calls + [next], provider)
    ensures (calls + [next])[..|calls|] == calls
  {
    var longer := calls + [next];
    forall i | 1 <= i < |longer|
      ensures LinkedAt(longer, i, tools, maxRounds, dispatch)
    {
      if i < |calls| {
        assert LinkedAt(calls, i, tools, maxRounds, dispatch);
        assert longer[i - 1] == calls[i - 1] && longer[i] == calls[i];
      }
    }
    assert longer[..|calls|] == calls;
  }

  /** The loop stops only when the last call failed, its reply does not ask for
      tools, or the round counter has reached the bound. */
  ghost predicate Halted(calls: seq<Call>, maxRounds: int) {
    |calls| > 0 && (!AsksForTools(calls[|calls| - 1].outcome) || |calls| - 1 >= maxRounds)
  }

  /** The text answered for the last outcome of the loop. */
  function AnswerText(last: Outcome): (text: string)
    ensures last.Failure? ==>
      |text| == |ErrorPrefix| + |last.message| && text[..|ErrorPrefix|] == ErrorPrefix && text[|ErrorPrefix|..] == last.message
    ensures last.Reply? ==> text == ExtractText(last.response)
  {
    match last
    case Failure(m) => ErrorPrefix + m
    case Reply(r) => ExtractText(r)
  }

  /** The text the loop answers once reply `current` has come back with the
      round counter at `round`: the reply's text when it does not ask for tools
      or the bound is reached, the error text when the next call fails, and
      otherwise the answer from the next reply on. */
  function LoopAnswer(current: Response, round: nat, maxRounds: int, provider: Provider): string
    decreases maxRounds - round
  {
    if round >= maxRounds || current.stopReason != ToolUseReason then ExtractText(current)
    else
      match provider(round + 1)
      case Failure(m) => ErrorPrefix + m
      case Reply(r) => LoopAnswer(r, round + 1, maxRounds, provider)
  }

  /** Every tool call requested by the replies of `calls`, in order. */
  ghost function AllInvocations(calls: seq<Call>): seq<Invocation> {
    if calls == [] then []
    else
      AllInvocations(calls[..|calls| - 1]) +
      (match calls[|calls| - 1].outcome
       case Reply(r) => Invocations(r.content)
       case Failure(_) => [])
  }

  /** One tool round: runs the reply's tools, then appends the assistant turn
      and, when there are results, the results turn. */
  method ExtendWithRound(messages: seq<Message>, current: Response, dispatch: Dispatcher)
    returns (extended: seq<Message>, ghost batch: seq<Invocation>)
    ensures extended == messages + RoundTurns(current, dispatch)
    ensures batch == Invocations(current.content)
  {
    var results;
    results, batch := RunTools(current, dispatch);
    extended := messages + [AssistantTurn(current.content)];
    if results != [] {
      extended := extended + [ToolResultsTurn(results)];
    }
  }

  /** The tool loop, entered with the first reply and the first request.
      `calls` logs the first call and every call the loop makes; `invoked`
      logs every tool call dispatched. */
  method HandleSequentialToolExecution(initial: Response, base: Request, dispatch: Dispatcher,
                                       provider: Provider, maxRounds: int := 2)
    returns (text: string, ghost calls: seq<Call>, ghost invoked: seq<Invocation>)
    ensures 1 <= |calls| <= CallBound(maxRounds)
    ensures calls[0] == Call(base, Reply(initial))
    ensures Scripted(calls, provider)
    ensures Chained(calls, OfferedTools(base), maxRounds, dispatch)
    ensures Halted(calls, maxRounds)
    ensures text == AnswerText(calls[|calls| - 1].outcome)
    ensures invoked == AllInvocations(calls[..|calls| - 1])
    ensures text == LoopAnswer(initial, 0, maxRounds, provider)
  {
    var messages := base.messages;
    var round := 0;
    var current := initial;
    calls, invoked := [Call(base, Reply(initial))], [];
    while round < maxRounds
      invariant 0 <= round < CallBound(maxRounds)
      invariant |calls| == round + 1
      invariant calls[0] == Call(base, Reply(initial))
      invariant Scripted(calls, provider)
      invariant Chained(calls, OfferedTools(base), maxRounds, dispatch)
      invariant calls[round].request.system == base.system
      invariant calls[round].request.messages == messages
      invariant calls[round].outcome == Reply(current)
      invariant invoked == AllInvocations(calls[..round])
      invariant LoopAnswer(current, round, maxRounds, provider) == LoopAnswer(initial, 0, maxRounds, provider)
    {
      if current.stopReason != ToolUseReason {
        text := ExtractText(current);
        return;
      }
      ghost var batch;
      messages, batch := ExtendWithRound(messages, current, dispatch);
      round := round + 1;
      var request :=
        if round < maxRounds then Request(base.system, messages, Some(OfferedTools(base)))
        else Request(base.system, messages, None);
      var outcome := provider(round);
      LogOneMore(calls, Call(request, outcome), OfferedTools(base), maxRounds, dispatch, provider);
      calls := calls + [Call(request, outcome)];
      invoked := invoked + batch;
      match outcome
      case Failure(m) =>
        text := ErrorPrefix + m;
        return;
      case Reply(r) =>
        current := r;
    }
    text := ExtractText(current);
  }

  /** Answers a query. The first call's outcome is `provider(0)`, the loop's
      calls are `provider(1)`, `provider(2)`, and so on. `calls` logs every
      provider call and `invoked` every tool call dispatched. As in the source,
      history, tools and tool manager default to absent and the rounds to two. */
  method GenerateResponse(prompt: string, query: string, provider: Provider,
                          history: Option<string> := None, tools: seq<ToolDef> := [],
                          manager: Option<Dispatcher> := None, maxRounds: int := 2)
    returns (answer: Answer, ghost calls: seq<Call>, ghost invoked: seq<Invocation>)
    ensures 1 <= |calls| <= CallBound(maxRounds)
    ensures calls[0].request == InitialRequest(prompt, query, history, tools)
    ensures calls[0].outcome == provider(0) && Scripted(calls, provider)
    ensures |calls| == 1 <==> !AsksForTools(provider(0)) || manager.None? || maxRounds <= 0
    ensures manager.Some? ==> Chained(calls, tools, maxRounds, manager.value) && Halted(calls, maxRounds)
    ensures answer ==
      if provider(0).Failure? then Raised(provider(0).message)
      else Answered(AnswerText(calls[|calls| - 1].outcome))
    ensures invoked == AllInvocations(calls[..|calls| - 1])
    ensures provider(0).Reply? ==>
      answer == Answered(if manager.Some? then LoopAnswer(provider(0).response, 0, maxRounds, provider)
                         else ExtractText(provider(0).response))
  {
    var request := InitialRequest(prompt, query, history, tools);
    var first := provider(0);
    match first
    case Failure(m) =>
      answer := Raised(m);
      calls, invoked := [Call(request, first)], [];
    case Reply(response) =>
      if response.stopReason == ToolUseReason && manager.Some? {
        var text;
        text, calls, invoked := HandleSequentialToolExecution(response, request, manager.value, provider, maxRounds);
        answer := Answered(text);
      } else {
        answer := Answered(ExtractText(response));
        calls, invoked := [Call(request, first)], [];
      }
  }
}
