/** The generator's documented scenarios, replayed against its contract: in
    each, the provider's replies are scripted and the answer and the call log
    follow from `GenerateResponse`'s postconditions alone. */
module Scenarios {
  import opened Content
  import opened Extraction
  import opened Requests
  import opened ToolRound
  import opened Generator
  import opened Protocol

  /** A reply that asks for one tool. */
  function ToolReply(name: string, id: string, input: ToolInput): Response {
    Response(ToolUseReason, [ToolUse(name, id, input)])
  }

  /** A reply holding one text block. */
  function TextReply(stop: string, text: string): Response {
    Response(stop, [Text(text)])
  }

  lemma TextReplyText(stop: string, text: string)
    ensures ExtractText(TextReply(stop, text)) == text
  {
    assert TextReply(stop, text).content[1..] == [];
  }

  /** A reply that does not ask for tools is answered with its text after one
      call, and nothing is dispatched. */
  method GeneralQuery(prompt: string, tools: seq<ToolDef>, manager: Option<Dispatcher>)
    returns (answer: Answer, ghost calls: seq<Call>, ghost invoked: seq<Invocation>)
    ensures answer == Answered("RAG stands for Retrieval-Augmented Generation.")
    ensures |calls| == 1 && invoked == []
  {
    var reply := TextReply("end_turn", "RAG stands for Retrieval-Augmented Generation.");
    TextReplyText("end_turn", "RAG stands for Retrieval-Augmented Generation.");
    answer, calls, invoked := GenerateResponse(prompt, "What is RAG?", (k: nat) => Reply(reply),
                                               tools := tools, manager := manager);
  }

  /** A failure of the first call reaches the caller. */
  method FirstCallFails(prompt: string, tools: seq<ToolDef>, manager: Option<Dispatcher>)
    returns (answer: Answer, ghost calls: seq<Call>)
    ensures answer == Raised("API Error")
    ensures |calls| == 1
  {
    ghost var invoked;
    answer, calls, invoked := GenerateResponse(prompt, "Test query", (k: nat) => Failure("API Error"),
                                               tools := tools, manager := manager);
  }

  /** A reply asking for one tool requests exactly that call, and its round
      appends the reply and that call's result. */
  lemma SingleToolRound(name: string, id: string, input: ToolInput, dispatch: Dispatcher)
    ensures Invocations(ToolReply(name, id, input).content) == [Invocation(name, id, input)]
    ensures RoundTurns(ToolReply(name, id, input), dispatch) ==
      [AssistantTurn(ToolReply(name, id, input).content), ToolResultsTurn([ToolResult(id, dispatch(name, input))])]
  {
    var inv := Invocation(name, id, input);
    assert ToolReply(name, id, input).content[1..] == [];
    assert ResultsFor([inv], dispatch) == [ToolResult(id, dispatch(name, input))];
  }

  /** One tool round, then a natural stop: two calls, the second carrying the
      tool's result under the tool-use block's id. */
  method OneToolThenAnswer(prompt: string, tools: seq<ToolDef>, dispatch: Dispatcher)
    returns (answer: Answer, ghost calls: seq<Call>, ghost invoked: seq<Invocation>)
    ensures answer == Answered("Answer after one tool")
    ensures |calls| == 2 && invoked == [Invocation("search_course_content", "tool_1", map["query" := Str("test")])]
    ensures calls[1].request.messages ==
      [UserQuery("Simple query"),
       AssistantTurn(ToolReply("search_course_content", "tool_1", map["query" := Str("test")]).content),
       ToolResultsTurn([ToolResult("tool_1", dispatch("search_course_content", map["query" := Str("test")]))])]
  {
    var first := ToolReply("search_course_content", "tool_1", map["query" := Str("test")]);
    var last := TextReply("end_turn", "Answer after one tool");
    TextReplyText("end_turn", "Answer after one tool");
    SingleToolRound("search_course_content", "tool_1", map["query" := Str("test")], dispatch);
    var provider: Provider := (k: nat) => if k == 0 then Reply(first) else Reply(last);
    answer, calls, invoked := GenerateResponse(prompt, "Simple query", provider, tools := tools, manager := Some(dispatch));
    assert AsksForTools(provider(0)) && !AsksForTools(provider(1));
    OnlyToolRequestsContinue(calls, tools, 2, dispatch, 1);
    assert LinkedAt(calls, 1, tools, 2, dispatch);
    assert calls[..0] == [];
    InvocationsUpTo(calls, 0);
  }

  /** A reply that keeps asking for tools: with two rounds there are exactly
      three calls, the second offers the tools, the third offers none, and the
      third reply's text is the answer. */
  method MaxRoundsEnforced(prompt: string, tools: seq<ToolDef>, dispatch: Dispatcher)
    returns (answer: Answer, ghost calls: seq<Call>)
    ensures answer == Answered("Forced final answer")
    ensures |calls| == 3
    ensures calls[1].request.offer == Some(tools) && calls[2].request.offer == None
  {
    var asking := ToolReply("search_course_content", "tool_x", map["query" := Str("test")]);
    var last := TextReply("end_turn", "Forced final answer");
    TextReplyText("end_turn", "Forced final answer");
    var provider: Provider := (k: nat) => if k < 2 then Reply(asking) else Reply(last);
    ghost var invoked;
    answer, calls, invoked := GenerateResponse(prompt, "Test query", provider, tools := tools, manager := Some(dispatch));
    assert AsksForTools(provider(0)) && AsksForTools(provider(1));
    assert LinkedAt(calls, 1, tools, 2, dispatch);
    assert LinkedAt(calls, 2, tools, 2, dispatch);
  }

  /** An outline lookup followed by a content search: three calls, the second
      still offering the tools, and the third reply's text is the answer. */
  method TwoSequentialRounds(prompt: string, tools: seq<ToolDef>, dispatch: Dispatcher)
    returns (answer: Answer, ghost calls: seq<Call>)
    ensures answer == Answered("Here's the outline and lesson 3 content")
    ensures |calls| == 3 && calls[1].request.offer == Some(tools)
  {
    var first := ToolReply("get_course_outline", "tool_1", map["course_name" := Str("MCP")]);
    var second := ToolReply("search_course_content", "tool_2", map["query" := Str("lesson 3"), "course_name" := Str("MCP")]);
    var last := TextReply("end_turn", "Here's the outline and lesson 3 content");
    TextReplyText("end_turn", "Here's the outline and lesson 3 content");
    var provider: Provider := (k: nat) => if k == 0 then Reply(first) else if k == 1 then Reply(second) else Reply(last);
    ghost var invoked;
    answer, calls, invoked :=
      GenerateResponse(prompt, "Show me MCP outline and lesson 3", provider, tools := tools, manager := Some(dispatch));
    assert AsksForTools(provider(0)) && AsksForTools(provider(1));
    assert LinkedAt(calls, 1, tools, 2, dispatch);
    assert LinkedAt(calls, 2, tools, 2, dispatch);
  }

  /** Whatever the reply at the bound says, its text is the answer: here it
      still asks for tools, and no further call is made. */
  method ForcedAnswerIgnoresStopReason(prompt: string, tools: seq<ToolDef>, dispatch: Dispatcher)
    returns (answer: Answer, ghost calls: seq<Call>)
    ensures answer == Answered("partial answer")
    ensures |calls| == 2 && calls[1].request.offer == None
  {
    var asking := ToolReply("get_course_outline", "tool_1", map["course_name" := Str("MCP")]);
    var last := Response(ToolUseReason, [Text("partial answer"), ToolUse("search_course_content", "tool_2", map[])]);
    var provider: Provider := (k: nat) => if k == 0 then Reply(asking) else Reply(last);
    ghost var invoked;
    answer, calls, invoked := GenerateResponse(prompt, "Outline of MCP", provider, tools := tools, manager := Some(dispatch), maxRounds := 1);
    assert AsksForTools(provider(0));
    assert LinkedAt(calls, 1, tools, 1, dispatch);
    assert last.content[1..][1..] == [];
    assert ExtractText(last) == "partial answer";
  }

  /** A failure of a call inside the loop becomes the answer text. */
  method LaterCallFails(prompt: string, tools: seq<ToolDef>, dispatch: Dispatcher)
    returns (answer: Answer, ghost calls: seq<Call>)
    ensures answer == Answered(ErrorPrefix + "connection reset")
    ensures |calls| == 2
  {
    var asking := ToolReply("search_course_content", "tool_1", map["query" := Str("test")]);
    var provider: Provider := (k: nat) => if k == 0 then Reply(asking) else Failure("connection reset");
    ghost var invoked;
    answer, calls, invoked := GenerateResponse(prompt, "Test query", provider, tools := tools, manager := Some(dispatch));
    assert AsksForTools(provider(0)) && !AsksForTools(provider(1));
    OnlyToolRequestsContinue(calls, tools, 2, dispatch, 1);
  }

  /** With no rounds allowed, a reply asking for tools is answered with its own
      text after one call, and no tool runs. */
  method NoRoundsAllowed(prompt: string, tools: seq<ToolDef>, dispatch: Dispatcher)
    returns (answer: Answer, ghost calls: seq<Call>, ghost invoked: seq<Invocation>)
    ensures answer == Answered("let me search")
    ensures |calls| == 1 && invoked == []
  {
    var asking := Response(ToolUseReason, [Text("let me search"), ToolUse("search_course_content", "tool_1", map[])]);
    answer, calls, invoked := GenerateResponse(prompt, "Test query", (k: nat) => Reply(asking),
                                               tools := tools, manager := Some(dispatch), maxRounds := 0);
    assert asking.content[1..][1..] == [];
    assert ExtractText(asking) == "let me search";
  }
}
