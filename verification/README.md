# AI waiter demo — a Dafny model

The repository implements the same restaurant waiter agent twice. The
LangChain version is a LangGraph graph: an `agent` node asks the tool-bound
model for its next message; a router sends a sole `respond_to_user` call to
a `respond` node and everything else to a `tools` node; a turn loop feeds
the customer's lines back in. The PydanticAI version is an agent with a
dynamic system prompt and two tools. Its run loop greets the customer,
then passes on each line the customer types, until an order has been
placed. A small command-line front end lists the supported model names and
finds the API key.

This project models those pieces as pure Dafny functions over immutable
data and proves what they promise. The model covers:

- the router, the respond node and the graph's edges;
- the bounded run of the graph and the LangGraph turn loop;
- the tools and their dispatch by name;
- the JSON form of the structured response;
- the model-name parsing on both sides;
- `str.format` on the prompt template;
- the PydanticAI run loop;
- the model listing and the API-key fallback.

The two language models, and LangGraph's prebuilt tool node, are
function-valued parameters (`Graph.Collaborators`, `AgentRun.Agent`), so
every property holds for any model behaviour. The files are:

- `wrappers.dfy`: `Option`, `Result`, and the Python exceptions the code raises (`Errors`).
- `text.dfy`: `startswith`, `split`/`join`, tuple unpacking of a split, truthiness, `str(int)` and `int(str)`.
- `json.dfy`: string escaping, a compact JSON encoder for string, boolean, integer and string-list values, and a parser for objects whose values are strings and booleans.
- `messages.dfy`: messages, tool calls, the `LLMResponse` record and its validation, plus the menu and order services.
- `tools.dfy`: the LangChain tools.
- `graph.dfy`: the LangGraph graph and its turn loop.
- `chat_model.dfy`: the LangChain model construction.
- `agent_model.dfy`: the PydanticAI model choice and tools.
- `prompt_format.dfy`: `str.format`, the prompt template and the system prompt.
- `agent_run.dfy`: the PydanticAI run loop.
- `cli.dfy`: `format_model_options` and the API-key fallback.

Three behaviours of the code are worth stating plainly, because a reader
might expect otherwise:

- **The LangChain side does not check the provider.** `build_model_from_name_and_api_key` in `langchain/model.py` only splits the name: an unknown provider gets no key argument and is passed on to `init_chat_model`, which is not modelled (`ChatModel.BuildChatModel`).
- **A model reply with no tool call goes to the tools node.** The router sends every batch other than a sole `respond_to_user` call to the tools node, the empty batch included (`Graph.MixedOrEmptyBatchContinues`).
- **The PydanticAI loop stops on orders, not on `end_conversation`.** It stops after the first customer turn that leaves an order on record, and it does not check for orders after the greeting (`AgentRun.RunPydanticAI`).

## Model

| member | source | states |
|---|---|---|
| Text.UnpackPair | src/ai_framework_demo/langchain/model.py:6 | `a, b = s.split(sep)` succeeds exactly when `s` holds one separator; the two halves then rebuild `s` around it and are separator-free; otherwise it is a ValueError |
| Text.UnpackJoined | src/ai_framework_demo/__main__.py:19 | unpacking `a + sep + b`, with both halves separator-free, gives back `(a, b)` |
| Text.IntRoundTrip | src/ai_framework_demo/langchain/tools.py:26 | reading back the decimal text `str` writes for any integer, sign included, gives that integer |
| Json.StringRoundTrip | src/ai_framework_demo/langchain/tools.py:62-64 | a string written as a JSON string literal parses back to the same string and leaves the text after it alone |
| Json.ObjectRoundTrip | src/ai_framework_demo/langchain/tools.py:62-64 | a JSON object written from string and boolean members parses back to the same members in the same order |
| Messages.ResponseFromFields | src/ai_framework_demo/langchain/graph.py:66-67 | `LLMResponse(**args)` succeeds exactly when `message` is a string and `end_conversation` a boolean; both fields then come from the arguments; any failure is a validation error |
| Messages.ResponseRoundTrip | src/ai_framework_demo/langchain/tools.py:62-64 | a response serialised by `model_dump_json` validates back to the same message and flag |
| Tools.ToolByName | src/ai_framework_demo/langchain/tools.py:17-51 | a name selects a tool exactly when it is the name that tool is registered under |
| Tools.ToolNamesDistinct | src/ai_framework_demo/langchain/tools.py:17-51 | two tools share a name only if they are the same tool |
| Tools.RespondToUser | src/ai_framework_demo/langchain/tools.py:62-64 | the text `respond_to_user` returns validates back to the response it was called with |
| Tools.InvokeTool | src/ai_framework_demo/langchain/tools.py:21-82 | `get_menu` returns the menu and changes nothing. `create_order` runs exactly when `order_items` is a list of strings and `table_number` is an integer or the text of one, as lax validation accepts; it appends one order with them and answers "Order placed", and otherwise fails validation. `respond_to_user` runs exactly when the response validates, returns its serialisation and changes nothing |
| Tools.TableNumberAsText | src/ai_framework_demo/langchain/tools.py:25-27 | a table number sent as the decimal text of a number places the order for that table |
| Graph.Apply | src/ai_framework_demo/langchain/graph.py:53-79 | a node's update appends its messages after the existing ones and replaces `final_response` only when it sets one |
| Graph.ShouldContinue | src/ai_framework_demo/langchain/graph.py:83-92 | the router fails unless the last message is a model message. It routes to `respond` exactly when that message holds one tool call and the call is `respond_to_user` |
| Graph.MixedOrEmptyBatchContinues | src/ai_framework_demo/langchain/graph.py:87-92 | a model message with no tool calls, or with several, goes to the tools node even if one of them is `respond_to_user` |
| Graph.Answer | src/ai_framework_demo/langchain/graph.py:61-79 | the respond node succeeds exactly when the first tool call's arguments validate. It then appends one tool message answering that call with the fixed text and the `respond_to_user` name, and sets the final response to the validated arguments |
| Graph.Successors | src/ai_framework_demo/langchain/graph.py:95-117 | END is reachable only from `respond`, `agent` only from `tools`, `respond` only from `agent`; END has no successor |
| Graph.EndOnlyAfterRespond | src/ai_framework_demo/langchain/graph.py:104-117 | on any walk from the entry point, END occurs only last and right after `respond` |
| Graph.Step | src/ai_framework_demo/langchain/graph.py:53-117 | one node run follows a graph edge and only grows the transcript. The agent node appends one model message and leaves the graph ready for `respond` only after a sole response call. The respond node fails exactly when validation fails, and otherwise ends with the answer in place |
| Graph.Run | src/ai_framework_demo/langchain/graph.py:95-119 | a run that reaches END has strictly extended the transcript and ends with a sole response call, its acknowledgement and the validated final response. A run that fails hit the recursion limit or a validation error |
| Graph.Invoke | src/ai_framework_demo/langchain/graph.py:140-142 | a successful invocation always carries a final response, which came from the last `respond_to_user` call |
| Graph.RunLangGraphAgent | src/ai_framework_demo/langchain/graph.py:122-152 | every recorded turn is what invoking the graph on the transcript sent returned. The first invocation sends only the greeting instruction, and every later one the previous returned transcript plus the customer's next line. The loop stops without error exactly when the last answer ends the conversation and no earlier answer did. Running out of input comes after one invocation per line plus the greeting. Any other stop is the error the graph raised on the next transcript |
| ChatModel.BuildChatModel | src/ai_framework_demo/langchain/model.py:5-13 | the name is accepted exactly when it holds one colon, and provider + ":" + model rebuilds it. A key argument is passed exactly when the key is non-empty and the provider has a known keyword, and then it is the only argument |
| ChatModel.BuildFromParts | src/ai_framework_demo/langchain/model.py:6-13 | building from `provider:model` with colon-free halves yields that provider and that model |
| AgentModel.PrefixesExclusive | src/ai_framework_demo/pydanticai/agent.py:46-71 | a name starts with at most one of the six provider prefixes, so the branch order does not matter |
| AgentModel.BuildModel | src/ai_framework_demo/pydanticai/agent.py:45-77 | a name with a known prefix builds that provider's client from the rest of the name. Ollama's key falls back to "ollama" when the given key is missing or empty; any other name is "Unsupported model name: ..." |
| AgentModel.BuildModelInverse | src/ai_framework_demo/pydanticai/agent.py:45-77 | a supported name is its provider's prefix followed by the model name the client got |
| AgentModel.CreateOrder | src/ai_framework_demo/pydanticai/agent.py:36-40 | the tool appends exactly one order with the given table and items, keeps the earlier orders and the menu, and answers "Order placed" |
| AgentModel.GetMenu | src/ai_framework_demo/pydanticai/agent.py:31-34 | the tool returns the menu service's menu and changes nothing |
| PromptFormat.Format | src/ai_framework_demo/pydanticai/agent.py:28 | formatting fails only with a ValueError, an IndexError or a KeyError |
| PromptFormat.FormatBraceFree | src/ai_framework_demo/pydanticai/agent.py:28 | text without braces formats to itself, whatever the fields |
| PromptFormat.FormatTrailingBrace | src/ai_framework_demo/pydanticai/agent.py:28 | brace-free text followed by a lone `{` fails with the ValueError "Single '{' encountered in format string" |
| PromptFormat.FormatMissingField | src/ai_framework_demo/pydanticai/agent.py:28 | a field with no value is a KeyError naming that field |
| PromptFormat.FillTwoFields | src/ai_framework_demo/prompt.py:1-9 | a template of brace-free text around two named fields formats to the text with the two values put in |
| Prompt.TemplateFilledIn | src/ai_framework_demo/prompt.py:1-9 | the waiter template, given both fields, formats to its text with the restaurant name and the table number in place |
| Prompt.SystemPrompt | src/ai_framework_demo/pydanticai/agent.py:26-28 | the system prompt always formats and is the template's text with the restaurant name and the decimal table number |
| AgentRun.Converse | src/ai_framework_demo/pydanticai/run.py:42-55 | every run is the agent's answer to its request, made against the services the previous run left. Each run sends the customer's next line with the same dependencies and the previous run's full history. The loop stops exactly after the first run that leaves any order on record; otherwise it fails with end of input after one run per line |
| AgentRun.RunPydanticAI | src/ai_framework_demo/pydanticai/run.py:13-55 | the session runs against fresh services with no orders, and every run, the greeting included, is the agent's answer against the services the run before it left. The greeting has no history; every later run sends the next line with the previous history and the same dependencies. The session stops without error exactly when a customer turn leaves an order on record; the greeting's orders are not checked |
| AgentRun.OrderEndsNextRun | src/ai_framework_demo/pydanticai/run.py:51-55 | for an agent that never withdraws orders, once an order is on record the next customer turn ends the session |
| AgentRun.GreetingOrderEndsAfterFirstLine | src/ai_framework_demo/pydanticai/run.py:35-55 | an order placed during the greeting ends the session right after the customer's first line |
| Cli.ProviderModelPairs | src/ai_framework_demo/__main__.py:16-19 | the listing succeeds exactly when every listed name holds one colon, and yields one (provider, model) pair per listed name, in order |
| Cli.AddTo | src/ai_framework_demo/__main__.py:20 | adding a model grows its provider's group at the end and leaves the other groups alone. An unseen provider opens a new group after all others |
| Cli.Group | src/ai_framework_demo/__main__.py:14-20 | the groups are exactly the providers that occur, each once, in order of first occurrence. Each group holds exactly its provider's models, in order |
| Cli.FormatModelOptions | src/ai_framework_demo/__main__.py:13-24 | the listing fails exactly when a listed name does not hold exactly one colon, with the unpacking ValueError. Otherwise, when no name holds a line break, it reads back as one line `- provider: models` per provider, in first-occurrence order, each line listing all of that provider's models in order; with nothing listed it is empty |
| Cli.ResolveApiKey | src/ai_framework_demo/__main__.py:83-87 | the key is the `--api-key` value when it is non-empty, else the environment value when that is non-empty; neither is a ValueError with the fixed message |

## Left out

- **The language models.** Both language models and their prompts are opaque function parameters. So is LangGraph's `ToolNode` inside the graph: how it dispatches the pending calls and words its error messages is not modelled. The tools it runs, with their argument checks, are modelled on their own (`Tools.InvokeTool`). The LangChain prompt template comes from `ai_framework_demo.llm`, which is not part of this model.
- **The message reducer.** `add_messages` is modelled as plain appending. Its replacement of messages by id never occurs in this flow.
- **`LLMResponse` validation.** It is modelled as two required, strictly typed fields, with extra fields ignored. pydantic's lax coercions are not modelled, for example "true" as a boolean. `ai_framework_demo.llm` itself is not part of this model.
- **JSON.** The encoder covers strings, booleans, integers and string lists; the parser reads back only objects of string and boolean members, which is all a serialised `LLMResponse` holds. Output is compact, with lower-case `\u` escapes. Non-ASCII text is written as it is. Surrogate pairs in `\u` escapes are refused rather than combined.
- **Model and agent failures.** A language model call or an `agent.run` that raises, for example on a provider or transport error or pydantic_ai's `UnexpectedModelBehavior`, is not modelled. The model parameters are total functions, so neither loop has that error path; in the code such an exception ends the program.
- Tools.InvokeTool: of pydantic's lax conversions for `create_order` only the decimal text of an integer for `table_number` is modelled. Its other lax conversions, for example a float without a fractional part, are not, because those rules belong to pydantic, which is not part of this model.
- **`str.format`.** The model handles named fields and doubled braces. Conversions (`!r`), format specs (`:>5`), attribute and index access in field names, and positional fields beyond the empty-name error are not modelled.
- **The recursion limit.** LangGraph's limit is a bound on node runs (`Graph.Run`'s `steps`). Its exact accounting and the text of `GraphRecursionError` are left out.
- **Output and input.** `print`, logging (`logfire`) and `argparse` parsing are left out. `input()` is a sequence of lines; running past its end is `EndOfInput`, standing for `EOFError`.
- **The services.** `MenuService` and `OrderService` are not part of this model. The menu is an opaque value, and the order service is the log of `create_order` calls, empty at start.
- **The model name list.** `KnownModelName` from pydantic_ai is not visible, so it is a parameter of `Cli.FormatModelOptions`.
- **`main`'s framework dispatch** at `__main__.py` lines 89-93 is not valid Python as written (an empty `if` body), so there is nothing to model. The langchain `agent.py` module and the `AgentState` service fields are outside the modelled core.
- **The `run_pydanticai` model construction.** Model construction and `get_agent` wiring are modelled only through `AgentModel.BuildModel` and the tool and prompt functions. The PydanticAI agent's internal model-tool loop is the `AgentRun.Agent` parameter.
- AgentRun.Converse: the agent parameter may change the order store freely. That orders are never withdrawn is an assumption (`KeepsOrders`) of the lemmas that need it, not a property of the loop.
- Text.UnpackPair: the "too many values" message is Python 3.12's wording, without the "got N" suffix that newer versions add.
