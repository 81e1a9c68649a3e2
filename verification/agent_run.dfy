/** The PydanticAI front end's conversation loop: greet the customer, then
    pass each line the customer types to the agent, carrying the whole
    message history forward, until an order has been placed. */
module AgentRun {
  import opened Wrappers
  import opened Errors
  import opened Services
  import opened AgentModel
  import opened Messages

  /** A message of PydanticAI's history. The loop only carries histories
      from one run to the next, so their inner structure does not matter. */
  datatype ModelMessage = UserPrompt(content: string) | ModelReply(content: string)

  /** One call of `agent.run`: the prompt, the history it continues (none
      for the greeting) and the dependencies the tools see. */
  datatype RunRequest = RunRequest(prompt: string, history: Option<seq<ModelMessage>>, deps: Deps)

  /** What a run hands back: the text shown to the customer and the full
      history including this run. */
  datatype RunResult = RunResult(data: string, allMessages: seq<ModelMessage>)

  /** The agent: a run, given the services as they stand, yields its result
      and the services afterwards (its tools may have placed orders). */
  type Agent = (RunRequest, Services) -> (RunResult, Services)

  /** One run of the loop: what was sent, the services it started from,
      what came back and the services it left behind. */
  datatype Exchange = Exchange(request: RunRequest, before: Services, result: RunResult, after: Services)

  /** Each run of `trace` sends the matching customer line with `deps`,
      the first one continuing `history` and each later one the full
      history the run before it returned. */
  predicate Sends(trace: seq<Exchange>, deps: Deps, history: seq<ModelMessage>, inputs: seq<string>) {
    && |trace| <= |inputs|
    && (forall i | 0 <= i < |trace| :: trace[i].request.prompt == inputs[i] && trace[i].request.deps == deps)
    && (|trace| > 0 ==> trace[0].request.history == Some(history))
    && (forall j, k | 0 <= j < |trace| && 0 <= k < |trace| && k == j + 1 ::
          trace[k].request.history == Some(trace[j].result.allMessages))
  }

  /** Every run of `trace` is the agent's answer to its request, the first
      one against `svc` and each later one against the services the run
      before it left: all runs share one order service. */
  predicate Threaded(agent: Agent, trace: seq<Exchange>, svc: Services) {
    && (|trace| > 0 ==> trace[0].before == svc)
    && (forall i | 0 <= i < |trace| :: agent(trace[i].request, trace[i].before) == (trace[i].result, trace[i].after))
    && (forall j, k | 0 <= j < |trace| && 0 <= k < |trace| && k == j + 1 :: trace[k].before == trace[j].after)
  }

  /** The loop stops without error exactly after the first run that leaves
      an order on record, and otherwise at the end of the input, once every
      line has been sent. */
  predicate StopsOnOrder(trace: seq<Exchange>, stop: Option<Error>, inputs: seq<string>) {
    && (forall i | 0 <= i < |trace| - 1 :: trace[i].after.orders == [])
    && (stop.None? <==> |trace| > 0 && trace[|trace| - 1].after.orders != [])
    && (stop.Some? ==> stop == Some(EndOfInput) && |trace| == |inputs|)
  }

  /** The runs after the greeting. `history` is what the previous run
      returned and `svc` the services it left; the loop stops after the
      first run that leaves any order on record, and with `EndOfInput` when
      the customer's lines run out. */
  function Converse(agent: Agent, deps: Deps, svc: Services, history: seq<ModelMessage>, inputs: seq<string>)
    : (r: (seq<Exchange>, Option<Error>))
    decreases |inputs|
    ensures Sends(r.0, deps, history, inputs)
    ensures Threaded(agent, r.0, svc)
    ensures StopsOnOrder(r.0, r.1, inputs)
  {
    if |inputs| == 0 then ([], Some(EndOfInput))
    else
      var request := RunRequest(inputs[0], Some(history), deps);
      var (result, after) := agent(request, svc);
      var x := Exchange(request, svc, result, after);
      if after.orders != [] then ([x], None)
      else
        var (rest, stop) := Converse(agent, deps, after, result.allMessages, inputs[1..]);
        ConverseCons(x, rest, stop, deps, history, inputs);
        ThreadedCons(agent, x, rest, svc);
        ([x] + rest, stop)
  }

  /** A run that places no order, followed by the rest of the loop. */
  lemma ConverseCons(x: Exchange, rest: seq<Exchange>, stop: Option<Error>, deps: Deps,
                     history: seq<ModelMessage>, inputs: seq<string>)
    requires |inputs| > 0
    requires x.request == RunRequest(inputs[0], Some(history), deps) && x.after.orders == []
    requires Sends(rest, deps, x.result.allMessages, inputs[1..])
    requires StopsOnOrder(rest, stop, inputs[1..])
    ensures Sends([x] + rest, deps, history, inputs)
    ensures StopsOnOrder([x] + rest, stop, inputs)
  {
    var trace := [x] + rest;
    forall i | 1 <= i < |trace|
      ensures trace[i] == rest[i - 1] && inputs[i] == inputs[1..][i - 1]
    {
    }
  }

  /** A run of the agent against `svc`, followed by runs threaded from the
      services it left. */
  lemma ThreadedCons(agent: Agent, x: Exchange, rest: seq<Exchange>, svc: Services)
    requires x.before == svc && agent(x.request, svc) == (x.result, x.after)
    requires Threaded(agent, rest, x.after)
    ensures Threaded(agent, [x] + rest, svc)
  {
    var trace := [x] + rest;
    forall i | 1 <= i < |trace|
      ensures trace[i] == rest[i - 1]
    {
    }
  }

  /** The whole session against freshly made services: the greeting run
      without a history and with no check for orders, then `Converse` from
      the greeting's history and the services it left. */
  function RunPydanticAI(agent: Agent, deps: Deps, menu: Menu, inputs: seq<string>)
    : (r: (seq<Exchange>, Option<Error>))
    ensures 1 <= |r.0| <= |inputs| + 1
    ensures r.0[0].request == RunRequest(GreetingInstruction, None, deps)
    ensures Threaded(agent, r.0, Fresh(menu))
    ensures Sends(r.0[1..], deps, r.0[0].result.allMessages, inputs)
    ensures StopsOnOrder(r.0[1..], r.1, inputs)
  {
    var greeting := RunRequest(GreetingInstruction, None, deps);
    var (result, after) := agent(greeting, Fresh(menu));
    var x := Exchange(greeting, Fresh(menu), result, after);
    var (rest, stop) := Converse(agent, deps, after, result.allMessages, inputs);
    ThreadedCons(agent, x, rest, Fresh(menu));
    assert ([x] + rest)[1..] == rest;
    ([x] + rest, stop)
  }

  /** An agent that never withdraws an order: the orders after a run
      extend the orders before it. */
  ghost predicate KeepsOrders(agent: Agent) {
    forall request: RunRequest, svc: Services :: svc.orders <= agent(request, svc).1.orders
  }

  /** Once an order is on record, the next run ends the session, provided
      the customer types one more line. */
  lemma {:induction false} OrderEndsNextRun(agent: Agent, deps: Deps, svc: Services, history: seq<ModelMessage>, inputs: seq<string>)
    requires KeepsOrders(agent)
    requires svc.orders != [] && |inputs| > 0
    ensures |Converse(agent, deps, svc, history, inputs).0| == 1
    ensures Converse(agent, deps, svc, history, inputs).1 == None
  {
    var request := RunRequest(inputs[0], Some(history), deps);
    var after := agent(request, svc).1;
    assert svc.orders <= after.orders;
    assert after.orders != [];
  }

  /** An order placed while greeting is not noticed until the customer's
      first line has been answered, and then the session ends. */
  lemma GreetingOrderEndsAfterFirstLine(agent: Agent, deps: Deps, menu: Menu, inputs: seq<string>)
    requires KeepsOrders(agent)
    requires agent(RunRequest(GreetingInstruction, None, deps), Fresh(menu)).1.orders != []
    requires |inputs| > 0
    ensures |RunPydanticAI(agent, deps, menu, inputs).0| == 2
    ensures RunPydanticAI(agent, deps, menu, inputs).1 == None
  {
    var (result, after) := agent(RunRequest(GreetingInstruction, None, deps), Fresh(menu));
    OrderEndsNextRun(agent, deps, after, result.allMessages, inputs);
  }
}
