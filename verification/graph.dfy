/** The LangGraph waiter: an `agent` node that asks the tool-bound model for
    its next message, a `tools` node that runs the requested tools, and a
    `respond` node that turns a sole `respond_to_user` call into the final
    answer; plus the turn loop that feeds the customer's replies back in. */
module Graph {
  import opened Wrappers
  import opened Errors
  import opened Messages
  import opened Tools

  const DisplayedToUser := "*message displayed to user*"

  /** One reply of the tool-bound model: its text and the tool calls it
      requests (tool use is forced, so an answer is itself a call). */
  datatype AiReply = AiReply(content: string, toolCalls: seq<ToolCall>)

  /** What the graph runs but does not define: the prompt-plus-model chain,
      which sees the transcript, and LangGraph's prebuilt tool node, which
      answers the pending tool calls with messages to append. Both are
      opaque here. */
  datatype Collaborators = Collaborators(
    model: seq<Message> -> AiReply,
    toolNode: seq<Message> -> seq<Message>)

  datatype GraphState = GraphState(messages: seq<Message>, finalResponse: Option<LLMResponse>)

  /** What a node returns: messages to append, and a final response when
      the node sets one. */
  datatype Update = Update(newMessages: seq<Message>, finalResponse: Option<LLMResponse>)

  /** How the graph merges a node's update into the state: messages are
      appended, `final_response` is overwritten only when given. */
  function Apply(st: GraphState, u: Update): (r: GraphState)
    ensures st.messages <= r.messages
    ensures r.messages[|st.messages|..] == u.newMessages
    ensures u.finalResponse.None? ==> r.finalResponse == st.finalResponse
    ensures u.finalResponse.Some? ==> r.finalResponse == u.finalResponse
  {
    GraphState(st.messages + u.newMessages,
      if u.finalResponse.Some? then u.finalResponse else st.finalResponse)
  }

  function Last(ms: seq<Message>): Message
    requires |ms| > 0
  {
    ms[|ms| - 1]
  }

  /** A model message whose only tool call is `respond_to_user`. */
  predicate IsFinalAnswer(m: Message) {
    m.Ai? && |m.toolCalls| == 1 && m.toolCalls[0].name == RespondToUserName
  }

  datatype Route = Continue | Respond

  /** The router after the agent node. */
  function ShouldContinue(st: GraphState): (r: Result<Route, Error>)
    ensures r.Ok? <==> |st.messages| > 0 && Last(st.messages).Ai?
    ensures r == Ok(Respond) <==>
      |st.messages| > 0 && Last(st.messages).Ai? &&
      exists c :: Last(st.messages).toolCalls == [c] && c.name == RespondToUserName
  {
    if |st.messages| == 0 then Err(IndexError)
    else
      var last := Last(st.messages);
      if !last.Ai? then Err(AssertionError)
      else if |last.toolCalls| == 1 && last.toolCalls[0].name == RespondToUserName then
        assert last.toolCalls == [last.toolCalls[0]];
        Ok(Respond)
      else Ok(Continue)
  }

  /** A batch that holds `respond_to_user` next to any other call, or that
      holds no call at all, goes to the tools node. */
  lemma MixedOrEmptyBatchContinues(st: GraphState)
    requires |st.messages| > 0 && Last(st.messages).Ai?
    requires |Last(st.messages).toolCalls| != 1
    ensures ShouldContinue(st) == Ok(Continue)
  {
  }

  /** The `respond` node: the response is built from the first tool call's
      arguments and the call is acknowledged by one tool message. */
  function Answer(st: GraphState): (r: Result<Update, Error>)
    ensures r.Ok? ==>
      && |st.messages| > 0 && Last(st.messages).Ai? && |Last(st.messages).toolCalls| > 0
      && var call := Last(st.messages).toolCalls[0];
         && r.value.newMessages == [ToolResult(DisplayedToUser, call.id, RespondToUserName)]
         && ResponseFromFields(call.args).Ok?
         && r.value.finalResponse == Some(ResponseFromFields(call.args).value)
    ensures |st.messages| > 0 && Last(st.messages).Ai? && |Last(st.messages).toolCalls| > 0 ==>
      (r.Ok? <==> ResponseFromFields(Last(st.messages).toolCalls[0].args).Ok?)
    ensures r.Err? ==> r.error == IndexError || r.error == AssertionError || r.error.ValidationError?
  {
    if |st.messages| == 0 then Err(IndexError)
    else
      var last := Last(st.messages);
      if !last.Ai? then Err(AssertionError)
      else if |last.toolCalls| == 0 then Err(IndexError)
      else
        var call := last.toolCalls[0];
        var response :- ResponseFromFields(call.args);
        Ok(Update([ToolResult(DisplayedToUser, call.id, RespondToUserName)], Some(response)))
  }

  /** The agent node: one model message, the model's reply. */
  function CallModel(c: Collaborators, st: GraphState): Update {
    var reply := c.model(st.messages);
    Update([Ai(reply.content, reply.toolCalls)], None)
  }

  /** The tools node: whatever the prebuilt tool node answers. */
  function RunTools(c: Collaborators, st: GraphState): Update {
    Update(c.toolNode(st.messages), None)
  }

  datatype Node = Agent | ToolsNode | RespondNode | End

  const Entry := Agent

  /** The conditional edge out of `agent`. */
  function RouteTarget(route: Route): Node {
    match route
    case Continue => ToolsNode
    case Respond => RespondNode
  }

  /** The graph's edges: `agent` branches to `tools` or `respond`, `tools`
      goes back to `agent`, `respond` goes to END. */
  function Successors(n: Node): (s: set<Node>)
    ensures End in s <==> n == RespondNode
    ensures Agent in s <==> n == ToolsNode
    ensures RespondNode in s <==> n == Agent
    ensures n == End ==> s == {}
  {
    match n
    case Agent => {RouteTarget(Continue), RouteTarget(Respond)}
    case ToolsNode => {Agent}
    case RespondNode => {End}
    case End => {}
  }

  predicate IsPath(p: seq<Node>) {
    forall i | 0 <= i < |p| - 1 :: p[i + 1] in Successors(p[i])
  }

  /** On any walk from the entry, END comes last and right after
      `respond`. */
  lemma EndOnlyAfterRespond(p: seq<Node>, i: nat)
    requires IsPath(p) && |p| > 0 && p[0] == Entry
    requires i < |p| && p[i] == End
    ensures i == |p| - 1
    ensures i > 0 && p[i - 1] == RespondNode
  {
    NothingAfterEnd(p);
    assert p[i] in Successors(p[i - 1]);
  }

  lemma NothingAfterEnd(p: seq<Node>)
    requires IsPath(p)
    ensures forall j | 0 <= j < |p| - 1 :: p[j] != End
  {
    forall j | 0 <= j < |p| - 1
      ensures p[j] != End
    {
      assert p[j + 1] in Successors(p[j]);
    }
  }

  /** When the graph is about to run `respond`, the routing put it there. */
  predicate Ready(node: Node, st: GraphState) {
    node == RespondNode ==> |st.messages| > 0 && IsFinalAnswer(Last(st.messages))
  }

  /** A finished run: the transcript ends with the sole response call and
      its acknowledgement, and the final response is that call's
      arguments. */
  predicate Answered(st: GraphState) {
    && |st.messages| >= 2
    && var ai := st.messages[|st.messages| - 2];
       && IsFinalAnswer(ai)
       && Last(st.messages) == ToolResult(DisplayedToUser, ai.toolCalls[0].id, RespondToUserName)
       && ResponseFromFields(ai.toolCalls[0].args).Ok?
       && st.finalResponse == Some(ResponseFromFields(ai.toolCalls[0].args).value)
  }

  /** Running one node and following its outgoing edge. */
  function Step(c: Collaborators, node: Node, st: GraphState): (r: Result<(Node, GraphState), Error>)
    requires node != End
    ensures r.Ok? ==> r.value.0 in Successors(node) && st.messages <= r.value.1.messages
    ensures node == Agent ==>
      && r.Ok?
      && |r.value.1.messages| == |st.messages| + 1
      && Last(r.value.1.messages).Ai?
      && r.value.1.finalResponse == st.finalResponse
      && Ready(r.value.0, r.value.1)
    ensures node == ToolsNode ==> r.Ok? && r.value.0 == Agent && r.value.1.finalResponse == st.finalResponse
    ensures node == RespondNode && Ready(node, st) ==>
      && (r.Ok? <==> ResponseFromFields(Last(st.messages).toolCalls[0].args).Ok?)
      && (r.Ok? ==> r.value.0 == End && |r.value.1.messages| == |st.messages| + 1 && Answered(r.value.1))
    ensures Ready(node, st) && r.Err? ==> r.error.ValidationError?
  {
    match node
    case Agent =>
      var next := Apply(st, CallModel(c, st));
      // the model's message was just appended, so the router's
      // isinstance assertion holds
      var route := ShouldContinue(next).value;
      Ok((RouteTarget(route), next))
    case ToolsNode =>
      Ok((Agent, Apply(st, RunTools(c, st))))
    case RespondNode =>
      var u :- Answer(st);
      Ok((End, Apply(st, u)))
  }

  /** Runs the graph from `node` until END, for at most `steps` node runs
      (LangGraph's recursion limit). */
  function Run(c: Collaborators, node: Node, st: GraphState, steps: nat): (r: Result<GraphState, Error>)
    ensures Ready(node, st) && node != End && r.Ok? ==>
      && Answered(r.value)
      && st.messages < r.value.messages
    ensures Ready(node, st) && r.Err? ==> r.error == RecursionLimit || r.error.ValidationError?
    decreases steps
  {
    if node == End then Ok(st)
    else if steps == 0 then Err(RecursionLimit)
    else
      var (next, st') :- Step(c, node, st);
      Run(c, next, st', steps - 1)
  }

  /** One invocation of the compiled graph, from its entry point. */
  function Invoke(c: Collaborators, st: GraphState, limit: nat): (r: Result<GraphState, Error>)
    ensures r.Ok? ==> Answered(r.value) && st.messages < r.value.messages
    ensures r.Ok? ==> r.value.finalResponse.Some?
    ensures r.Err? ==> r.error == RecursionLimit || r.error.ValidationError?
  {
    Run(c, Entry, st, limit)
  }

  /** One graph invocation of the conversation: the transcript sent in and
      the state that came back. */
  datatype Turn = Turn(sent: seq<Message>, received: GraphState)

  predicate Ended(t: Turn) {
    t.received.finalResponse.Some? && t.received.finalResponse.value.endConversation
  }

  /** The turns of a conversation fit together: it opens with the greeting
      instruction alone, each invocation returns an answered extension of
      what it was sent, and each next invocation is sent the returned
      transcript plus the customer's next line. */
  predicate Chained(turns: seq<Turn>, userInputs: seq<string>) {
    && (|turns| > 0 ==> turns[0].sent == [Human(GreetingInstruction)])
    && (forall k | 0 <= k < |turns| ::
          Answered(turns[k].received) && turns[k].sent < turns[k].received.messages)
    && (forall j, k | 0 <= j < |turns| && 0 <= k < |turns| && k == j + 1 ::
          j < |userInputs| && turns[k].sent == turns[j].received.messages + [Human(userInputs[j])])
  }

  lemma ChainedExtend(turns: seq<Turn>, userInputs: seq<string>, t: Turn)
    requires Chained(turns, userInputs)
    requires |turns| == 0 ==> t.sent == [Human(GreetingInstruction)]
    requires |turns| > 0 ==>
      |turns| - 1 < |userInputs| &&
      t.sent == turns[|turns| - 1].received.messages + [Human(userInputs[|turns| - 1])]
    requires Answered(t.received) && t.sent < t.received.messages
    ensures Chained(turns + [t], userInputs)
  {
    var ts := turns + [t];
    forall j, k | 0 <= j < |ts| && 0 <= k < |ts| && k == j + 1
      ensures j < |userInputs| && ts[k].sent == ts[j].received.messages + [Human(userInputs[j])]
    {
      if k < |turns| {
        assert ts[k] == turns[k] && ts[j] == turns[j];
      }
    }
  }

  predicate NoneEnded(turns: seq<Turn>) {
    forall k | 0 <= k < |turns| :: !Ended(turns[k])
  }

  lemma NoneEndedExtend(turns: seq<Turn>, t: Turn)
    requires NoneEnded(turns)
    ensures forall k | 0 <= k < |turns + [t]| && k != |turns| :: !Ended((turns + [t])[k])
    ensures (turns + [t])[|turns|] == t
    ensures !Ended(t) ==> NoneEnded(turns + [t])
  {
    assert forall k | 0 <= k < |turns| :: (turns + [t])[k] == turns[k];
  }

  /** Every recorded turn is what the graph, invoked on the transcript
      sent with no final response yet, returned. */
  predicate Invoked(c: Collaborators, limit: nat, turns: seq<Turn>) {
    forall k | 0 <= k < |turns| :: Invoke(c, GraphState(turns[k].sent, None), limit) == Ok(turns[k].received)
  }

  lemma InvokedExtend(c: Collaborators, limit: nat, turns: seq<Turn>, t: Turn)
    requires Invoked(c, limit, turns)
    requires Invoke(c, GraphState(t.sent, None), limit) == Ok(t.received)
    ensures Invoked(c, limit, turns + [t])
  {
    var ts := turns + [t];
    forall k | 0 <= k < |ts|
      ensures Invoke(c, GraphState(ts[k].sent, None), limit) == Ok(ts[k].received)
    {
      if k < |turns| {
        assert ts[k] == turns[k];
      }
    }
  }

  /** The transcript the loop sends next: the greeting instruction alone at
      first, then the last returned transcript plus the customer's next
      line. */
  function NextSent(turns: seq<Turn>, userInputs: seq<string>): seq<Message>
    requires |turns| <= |userInputs|
  {
    if |turns| == 0 then [Human(GreetingInstruction)]
    else turns[|turns| - 1].received.messages + [Human(userInputs[|turns| - 1])]
  }

  /** The conversation loop: invoke the graph, show the answer, stop when it
      ends the conversation, otherwise read the next customer line. The
      completed invocations are returned with what stopped the loop, if it
      did not end normally (running out of input included). */
  method RunLangGraphAgent(c: Collaborators, userInputs: seq<string>, limit: nat)
    returns (turns: seq<Turn>, stop: Option<Error>)
    ensures Chained(turns, userInputs)
    ensures Invoked(c, limit, turns)
    ensures forall k | 0 <= k < |turns| && k != |turns| - 1 :: !Ended(turns[k])
    ensures stop.None? <==> |turns| > 0 && Ended(turns[|turns| - 1])
    ensures stop == Some(EndOfInput) ==> |turns| == |userInputs| + 1
    ensures stop.Some? && stop != Some(EndOfInput) ==>
      && |turns| <= |userInputs|
      && Invoke(c, GraphState(NextSent(turns, userInputs), None), limit) == Err(stop.value)
    ensures stop.Some? ==> stop.value == EndOfInput || stop.value == RecursionLimit || stop.value.ValidationError?
  {
    var sent := [Human(GreetingInstruction)];
    turns := [];
    while true
      invariant |turns| <= |userInputs|
      invariant Chained(turns, userInputs)
      invariant Invoked(c, limit, turns)
      invariant NoneEnded(turns)
      invariant sent == NextSent(turns, userInputs)
      decreases |userInputs| - |turns|
    {
      var result := Invoke(c, GraphState(sent, None), limit);
      if result.Err? {
        return turns, Some(result.error);
      }
      var turn := Turn(sent, result.value);
      ChainedExtend(turns, userInputs, turn);
      NoneEndedExtend(turns, turn);
      InvokedExtend(c, limit, turns, turn);
      turns := turns + [turn];
      if Ended(turn) {
        return turns, None;
      }
      if |turns| > |userInputs| {
        return turns, Some(EndOfInput);
      }
      sent := result.value.messages + [Human(userInputs[|turns| - 1])];
    }
  }
}
