# Bounded tool-calling response generator

This project models `AIGenerator` from a course-material question-answering
backend (`backend/ai_generator.py`). The generator answers a query with one
call to a language-model provider. When the reply's stop reason is
`"tool_use"` and a tool manager is present, it enters a bounded loop. Each
round runs every requested tool in block order. It then appends the assistant
turn and a batch of `tool_result` entries to the conversation and calls the
provider again. The tools stay on offer while the round counter is below
`max_tool_rounds`. They are withheld on the call that reaches it, and that
call's text is the answer whatever its stop reason. A failure of the first
call reaches the caller. A failure of any later call becomes the answer
`"Error during tool execution: " + message`.

Modules, one per file:

- `content.dfy` (`Content`): reply blocks as a tagged union (`Text`, `ToolUse`,
  and `Other`, whose kind is any other type tag, with an optional text field). Also conversation turns, requests,
  call outcomes, the provider and the tool dispatcher.
- `extraction.dfy` (`Extraction`): text extraction from a reply
  (`_extract_text_from_response`). `Split` is the inverse of the space join
  on non-empty lists of parts that hold no space.
- `requests.dfy` (`Requests`): the system text and the first request
  (`generate_response`, lines 95-112).
- `tool_round.dfy` (`ToolRound`): one tool round. `RunTools` is the `for`
  loop over content blocks. `RoundTurns` gives the turns a round appends.
- `generator.dfy` (`Generator`): `GenerateResponse` and the `while` loop
  `HandleSequentialToolExecution`. Both return a ghost log of every provider
  call (request sent, outcome received) and of every tool call dispatched.
- `protocol.dfy` (`Protocol`): lemmas about the call log. They cover how the
  conversation grows, when tools are offered, and how results pair with the
  tool calls.
- `scenarios.dfy` (`Scenarios`): the generator's test cases, with scripted
  provider replies. The answer and the log follow from `GenerateResponse`'s
  contract alone.

`GenerateResponse` keeps the source's defaults: no history, no tools, no tool
manager and two rounds (lines 76-79). The loop's own bound also defaults to
two (line 131). An absent tool list is the empty list.

The provider is a script `nat -> Outcome`: the outcome of the k-th call. Any
single run of the real provider yields some sequence of replies, so a
property proved for every script holds for every provider. The tool manager
is a function from tool name and input to result text. An absent manager is
`None`.

Behaviour of the source the model keeps:

- Extraction also takes the text of a block whose type is not `"text"` but
  which carries a `text` field (lines 226-227). Such blocks are `Other`
  blocks, whose type tag is neither `"text"` nor `"tool_use"` (`OtherKind`).
- A reply with stop reason `"tool_use"` and no tool-use block is not treated
  as an error. The round runs, dispatches nothing, and appends only the
  assistant turn (lines 158-178).
- Follow-up calls made while rounds remain offer `base_params.get("tools", [])`
  together with automatic tool choice (lines 186-192). When the first call
  offered no tools, they therefore offer an empty tool list rather than none
  (`OfferedTools`).
- The error text begins with a capital letter: `"Error during tool execution: "`.

## Model

| member | source | states |
|---|---|---|
| `Extraction.TextParts` | backend/ai_generator.py:222-227 | at most one part per block; no parts exactly when no block carries text |
| `Extraction.Join` | backend/ai_generator.py:229 | no parts give `""` and a single part is returned unchanged; the length is the parts' total length plus one per separator; with `JoinAppend`, which puts one space between two joined lists, this fixes every character |
| `Extraction.ExtractText` | backend/ai_generator.py:212-229 | the result is `""` when no block carries text |
| `Extraction.TextPartsAppend` | backend/ai_generator.py:223-227 | parts are taken in content order: the parts of `a + b` are those of `a` followed by those of `b` |
| `Extraction.TextPartsMembers` | backend/ai_generator.py:223-227 | a string is among the parts if and only if some block (a text block, or another kind with a text field) carries it |
| `Extraction.ExtractTextConcat` | backend/ai_generator.py:222-229 | the text of `a + b` is the text of `a`, one space, then the text of `b`; blocks without text are skipped |
| `Extraction.ExtractTextKeepsText` | backend/ai_generator.py:222-229 | the extracted text is at least as long as any contributing block's text, so it is non-empty when some block carries non-empty text |
| `Extraction.JoinAppend` | backend/ai_generator.py:229 | joining two non-empty lists of parts puts exactly one space between them |
| `Extraction.SplitJoin` | backend/ai_generator.py:229 | splitting the space-joined parts at spaces gives the parts back when none holds a space |
| `Extraction.ExtractTextRoundTrip` | backend/ai_generator.py:229 | splitting the extracted text at spaces recovers every contributing text in order, when those texts hold no space |
| `Requests.SystemContent` | backend/ai_generator.py:95-100 | the system text starts with the prompt; it is the prompt alone exactly when the history is absent or empty, and otherwise continues with the header and the history |
| `Requests.SystemContentRoundTrip` | backend/ai_generator.py:96-100 | the history can be read back from the system text when present; otherwise none is found there |
| `Requests.InitialRequest` | backend/ai_generator.py:102-112 | the first request carries the system text and exactly one user turn holding the query; it offers tools with automatic choice if and only if the tool list is non-empty, and then offers that list |
| `ToolRound.Invocations` | backend/ai_generator.py:159-160 | a round requests at most one tool call per block |
| `ToolRound.InvocationsAppend` | backend/ai_generator.py:159-160 | tool calls are taken in block order |
| `ToolRound.InvocationsAreToolUses` | backend/ai_generator.py:159-163 | a tool call is made if and only if a tool-use block with that name, id and input is in the reply; other blocks are skipped |
| `ToolRound.ResultsFor` | backend/ai_generator.py:161-171 | one result per tool call, in order, with `tool_use_id` equal to the block's id and content equal to what the tool returned for the block's name and input |
| `ToolRound.ResultsForAppend` | backend/ai_generator.py:157-171 | results are collected in call order: one more call appends exactly its result, under its id |
| `ToolRound.RoundTurns` | backend/ai_generator.py:173-178 | a round appends the assistant turn holding the reply's content, then the results turn, which is left out when there are no results |
| `ToolRound.RunTools` | backend/ai_generator.py:157-171 | the loop over blocks dispatches exactly the reply's tool calls, in order, and returns one result per tool-use block, in order, under its id |
| `Generator.OfferedToolsOfFirstRequest` | backend/ai_generator.py:186-192 | follow-ups offer exactly the caller's tool list, the empty list standing for none |
| `Generator.FollowUp` | backend/ai_generator.py:183-200 | the next request keeps the system text, keeps the earlier turns as a prefix, then adds the assistant turn holding the reply and at most one more turn; it offers the tools exactly when the round counter is below the bound |
| `Generator.AnswerText` | backend/ai_generator.py:155-210 | after a failure the answer is the error prefix followed by the failure's message, which can be read back from it; after a reply it is the reply's extracted text |
| `Generator.ExtendWithRound` | backend/ai_generator.py:157-178 | the conversation after a round is the one before it followed by the round's turns, and the calls dispatched are exactly the reply's tool calls |
| `Generator.HandleSequentialToolExecution` | backend/ai_generator.py:126-210 | the round counter never exceeds the bound, so at most `max_rounds + 1` calls are logged; each follow-up request is the previous one extended by the round's turns, offering the tools below the bound and none at it; the loop stops only on a failure, a reply not asking for tools, or the bound; the answer is the error text after a failure and the last reply's text otherwise, and equals `LoopAnswer`, the answer defined reply by reply from the script; the tools dispatched are those of every reply but the last |
| `Generator.GenerateResponse` | backend/ai_generator.py:73-124 | between 1 and `max_tool_rounds + 1` provider calls when `max_tool_rounds` is positive, exactly 1 otherwise; the first request is `InitialRequest`; exactly one call is made if and only if the first reply does not ask for tools, there is no tool manager, or `max_tool_rounds <= 0`; a first-call failure is raised to the caller; otherwise the answer is the loop's (`LoopAnswer`) when a tool manager is present and the first reply's text when not |
| `Protocol.ConversationOnlyGrows` | backend/ai_generator.py:146-178 | a later request keeps the system text and starts with the earlier request's turns unchanged; each round adds one or two turns |
| `Protocol.QueryStaysFirst` | backend/ai_generator.py:146-198 | every request of a query has the same system text and starts with the query as its first user turn |
| `Protocol.OnlyToolRequestsContinue` | backend/ai_generator.py:151-155 | a failure or a reply whose stop reason is not `"tool_use"` is the last call of the log |
| `Protocol.ToolOfferSchedule` | backend/ai_generator.py:184-200 | follow-up call `i` offers the original tools if `i < max_rounds` and none otherwise; the call without tools is the one at the bound and the last |
| `Protocol.RoundResultsMatchCalls` | backend/ai_generator.py:158-178 | after a round, the next request holds the assistant turn and then one result per tool-use block, in order, under that block's id |
| `Protocol.DispatchedBeforeLastReply` | backend/ai_generator.py:157-171 | every tool call requested by a reply before the last one was dispatched |
| `Scenarios.GeneralQuery` | backend/tests/test_ai_generator.py:75-97 | a reply that does not ask for tools is answered with its text after one call, with no tool run |
| `Scenarios.FirstCallFails` | backend/tests/test_ai_generator.py:211-226 | a first-call failure reaches the caller after one call |
| `Scenarios.SingleToolRound` | backend/ai_generator.py:157-178 | a reply with one tool-use block requests exactly that call, and its round appends the reply and that call's result under its id |
| `Scenarios.OneToolThenAnswer` | backend/tests/test_ai_generator.py:398-442 | one tool round and a natural stop give two calls; the second request holds the query, the assistant turn and the result under the block's id, which is what the test at lines 229-275 of the same file checks |
| `Scenarios.TwoSequentialRounds` | backend/tests/test_ai_generator.py:277-340 | an outline lookup then a search: three calls, the second still offering tools, and the third reply's text is the answer |
| `Scenarios.MaxRoundsEnforced` | backend/tests/test_ai_generator.py:342-396 | with two rounds and a model that keeps asking for tools, exactly three calls; the third offers no tools and its text is the answer |
| `Scenarios.ForcedAnswerIgnoresStopReason` | backend/ai_generator.py:193-210 | the reply to the call at the bound is answered with its text even when it asks for tools |
| `Scenarios.LaterCallFails` | backend/ai_generator.py:202-207 | a failure of a call inside the loop becomes the answer text and ends the loop |
| `Scenarios.NoRoundsAllowed` | backend/ai_generator.py:147-151 | with `max_tool_rounds` 0, a reply asking for tools is answered with its own text after one call, and no tool runs |

## Left out

- The provider client, the HTTP transport and the fixed request parameters
  (model name, temperature 0, 800 maximum tokens): foreign calls and
  pass-through configuration. The client is a scripted outcome per call.
- The wording of the system prompt: it is prompt text with no behaviour, so
  the prompt is a parameter.
- The tool manager and the tools behind it (search, outline, source tracking
  and reset), the retrieval pipeline, the vector store and session history.
  `search_tools.py`, `rag_system.py` and `vector_store.py` are not part of
  this model. Tool dispatch is a total function from tool name and input to
  result text. A tool that raises is not modelled, since the source does not
  catch tool errors.
- Tool definitions and tool inputs are passed through unchanged. Inputs are
  flat maps from names to strings or integers, not arbitrary JSON.
- An absent tool list and an empty one behave the same in the source (both
  are falsy), so the tool list is a sequence.
- The text of a caught exception (`str(e)`) is the failure's message. Which
  exceptions a provider raises is not modelled.
- Shared-list aliasing of the message list across recorded calls: the log
  holds one snapshot of each request.
