/** Construction of the first provider request: the system text, with the
    conversation history appended when there is one, the query as the only
    turn, and the tools offered only when some exist. */
module Requests {
  import opened Content

  /** What separates the system prompt from the conversation history. */
  const HistoryHeader: string := "\n\nPrevious conversation:\n"

  /** An absent history and an empty one both count as "no history". */
  predicate HasHistory(history: Option<string>) {
    history.Some? && history.value != ""
  }

  /** The system text: the prompt alone, or the prompt, the header and the history. */
  function SystemContent(prompt: string, history: Option<string>): (s: string)
    ensures |prompt| <= |s| && s[..|prompt|] == prompt
    ensures |s| == |prompt| <==> !HasHistory(history)
    ensures HasHistory(history) ==> s[|prompt|..] == HistoryHeader + history.value
  {
    if HasHistory(history) then prompt + HistoryHeader + history.value else prompt
  }

  /** Reads the history back out of a system text built on `prompt`. */
  function HistoryIn(prompt: string, s: string): Option<string>
    requires |prompt| <= |s|
  {
    if |s| <= |prompt| + |HistoryHeader| then None else Some(s[|prompt| + |HistoryHeader|..])
  }

  /** The history, when there is one, can be recovered from the system text;
      otherwise none is found there. */
  lemma SystemContentRoundTrip(prompt: string, history: Option<string>)
    ensures HistoryIn(prompt, SystemContent(prompt, history)) == if HasHistory(history) then history else None
  {
    var s := SystemContent(prompt, history);
    if HasHistory(history) {
      assert s[|prompt| + |HistoryHeader|..] == history.value;
    }
  }

  /** The first request of a query. */
  function InitialRequest(prompt: string, query: string, history: Option<string>, tools: seq<ToolDef>): (r: Request)
    ensures r.system == SystemContent(prompt, history)
    ensures r.messages == [UserQuery(query)]
    ensures r.offer.Some? <==> tools != []
    ensures r.offer.Some? ==> r.offer.value == tools
  {
    Request(SystemContent(prompt, history), [UserQuery(query)], if tools != [] then Some(tools) else None)
  }
}
