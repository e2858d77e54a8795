/** One tool round: every tool-use block of a reply is dispatched through the
    tool manager, in block order, and its result is recorded under the block's id. */
module ToolRound {
  import opened Content

  /** The tool calls a reply's content requests, in block order; blocks of any
      other kind are skipped. */
  function Invocations(blocks: seq<Block>): (invs: seq<Invocation>)
    ensures |invs| <= |blocks|
  {
    if blocks == [] then []
    else
      (match blocks[0]
       case ToolUse(name, id, input) => [Invocation(name, id, input)]
       case _ => [])
      + Invocations(blocks[1..])
  }

  lemma {:induction false} InvocationsAppend(a: seq<Block>, b: seq<Block>)
    ensures Invocations(a + b) == Invocations(a) + Invocations(b)
  {
    if a == [] {
      assert a + b == b;
    } else {
      assert (a + b)[0] == a[0];
      assert (a + b)[1..] == a[1..] + b;
      InvocationsAppend(a[1..], b);
    }
  }

  /** A call is requested exactly when a tool-use block with its name, id and
      input is in the content. */
  lemma {:induction false} InvocationsAreToolUses(blocks: seq<Block>, inv: Invocation)
    ensures inv in Invocations(blocks) <==> ToolUse(inv.name, inv.id, inv.input) in blocks
  {
    if blocks != [] {
      InvocationsAreToolUses(blocks[1..], inv);
      assert blocks == [blocks[0]] + blocks[1..];
    }
  }

  /** The results of a batch of calls: one per call, in call order, each under
      its call's id and holding what the dispatcher returns for its name and input. */
  function ResultsFor(invs: seq<Invocation>, dispatch: Dispatcher): (results: seq<ToolResult>)
    ensures |results| == |invs|
    ensures forall k :: 0 <= k < |invs| ==>
      results[k].toolUseId == invs[k].id && results[k].content == dispatch(invs[k].name, invs[k].input)
  {
    if invs == [] then []
    else [ToolResult(invs[0].id, dispatch(invs[0].name, invs[0].input))] + ResultsFor(invs[1..], dispatch)
  }

  lemma {:induction false} ResultsForAppend(invs: seq<Invocation>, inv: Invocation, dispatch: Dispatcher)
    ensures ResultsFor(invs + [inv], dispatch) == ResultsFor(invs, dispatch) + [ToolResult(inv.id, dispatch(inv.name, inv.input))]
  {
    if invs != [] {
      assert (invs + [inv])[1..] == invs[1..] + [inv];
      ResultsForAppend(invs[1..], inv, dispatch);
    }
  }

  /** The turns a tool round appends to the conversation: the assistant turn
      holding the reply's content, then the results turn, which is left out
      when the reply requested no tool. */
  function RoundTurns(r: Response, dispatch: Dispatcher): (turns: seq<Message>)
    ensures |turns| == if Invocations(r.content) == [] then 1 else 2
    ensures turns[0] == AssistantTurn(r.content)
    ensures |turns| == 2 ==> turns[1] == ToolResultsTurn(ResultsFor(Invocations(r.content), dispatch))
  {
    var results := ResultsFor(Invocations(r.content), dispatch);
    [AssistantTurn(r.content)] + (if results == [] then [] else [ToolResultsTurn(results)])
  }

  /** Taking block `i` into account adds its tool call, if it is a tool-use
      block, and that call's result. */
  lemma NextBlock(content: seq<Block>, i: nat, dispatch: Dispatcher)
    requires i < |content|
    ensures var invs := Invocations(content[..i]);
            var b := content[i];
            if b.ToolUse? then
              Invocations(content[..i + 1]) == invs + [Invocation(b.name, b.id, b.input)] &&
              ResultsFor(Invocations(content[..i + 1]), dispatch) ==
                ResultsFor(invs, dispatch) + [ToolResult(b.id, dispatch(b.name, b.input))]
            else Invocations(content[..i + 1]) == invs
  {
    var b := content[i];
    assert content[..i + 1] == content[..i] + [b];
    InvocationsAppend(content[..i], [b]);
    assert [b][1..] == [];
    if b.ToolUse? {
      ResultsForAppend(Invocations(content[..i]), Invocation(b.name, b.id, b.input), dispatch);
    }
  }

  /** Runs every tool a reply requests, in block order. `invoked` records each
      call made to the dispatcher. */
  method RunTools(response: Response, dispatch: Dispatcher)
    returns (results: seq<ToolResult>, ghost invoked: seq<Invocation>)
    ensures invoked == Invocations(response.content)
    ensures results == ResultsFor(Invocations(response.content), dispatch)
  {
    var content := response.content;
    results, invoked := [], [];
    for i := 0 to |content|
      invariant invoked == Invocations(content[..i])
      invariant results == ResultsFor(invoked, dispatch)
    {
      var block := content[i];
      NextBlock(content, i, dispatch);
      if block.ToolUse? {
        var output := dispatch(block.name, block.input);
        results := results + [ToolResult(block.id, output)];
        invoked := invoked + [Invocation(block.name, block.id, block.input)];
      }
    }
    assert content[..|content|] == content;
  }
}
