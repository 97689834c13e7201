# MCP client: the query-resolution loop

This project models the client in `client/mcp_client.py`. The client sits between a language-model API and an MCP tool server. It launches the server script and keeps the session. It fetches the server's tool list once and turns it into a catalog. It then resolves queries. To resolve a query, it resets the conversation to the user's message and asks the model. When the model answers with exactly one text block, the client appends that text and returns the conversation. Otherwise it appends the whole block list, walks the blocks in order (narrating text blocks and running tool calls), and asks again.

The model is split into six modules:

- `Wrappers` has `Option` and `Result`.
- `Conversation` is the data model: JSON values, content blocks (`Text`, `ToolCall`, `Other`), messages with a role and a plain, block-list or tool-result content, tool descriptors, the model request with its fixed `claude-2` model name and 1000-token ceiling, the trace events (`ModelCall`, `ToolInvoke`), and the error kinds.
- `Launcher` is the suffix rule: `.py` runs under `python`, `.js` under `node`, anything else is refused.
- `Catalog` is the projection of the listed tools into the catalog handed to the model.
- `Resolver` is the loop as pure functions. `Cycle` is one pass of the loop, `Resolve` iterates it, and `WalkBlocks` is the inner walk over one response. The lemmas about them state what the loop promises.
- `Client` is the object. Class `McpClient` has the fields `session`, `tools` and `messages`, which its methods update in place. `ProcessQuery` is the `while True` loop. `RunCycle` is one pass of it. `ActOn` is the inner `for` loop over the response's blocks. Each of these three methods is proved equal to its `Resolver` function: `ResolveQuery`, `Cycle` and `WalkBlocks`.

The collaborators are oracles:

- **Model endpoint.** It is the list of responses it gives, one per call (`replies`). A call made when the list is used up is a failed model call. This also bounds the loop, which the source leaves unbounded.
- **Tool session.** A `Session` value holds three things: the outcome of its handshake, the outcome of listing its tools, and its call operation, a function from tool name and arguments to a payload or a failure.
- **Transport.** Opening it is a function from the launch command to a session or a failure.

`ProcessQuery` also returns a `trace`, which lists every model call (with its full request) and every tool call, in order. The properties about call counts and call order are stated over this trace.

Behaviour of the code that the model keeps:

- A failed handshake or tool listing leaves the session stored, because line 34 stores it before the handshake at line 36. `Connect` keeps it stored too.
- `connect` returns `None` and signals failure only by raising.
- The catalog is a list in listing order, and it keeps duplicate names.
- A bad suffix raises `ValueError`. A failing tool call re-raises the session's own exception, which `ToolCallFailed` represents by the tool's name and the reason.
- When a resolution fails, `self.messages` keeps the partial conversation. `ProcessQuery` leaves `messages` equal to the `Resolve` conversation in every outcome.
- A response of several text blocks does not end the loop (`AllTextContinues`). An empty response fails when its first block is read (`EmptyResponseFails`).

## Model

| member | source | states |
|---|---|---|
| `Launcher.LaunchFor` | client/mcp_client.py:23-29 | the script is refused exactly when it ends in neither `.py` nor `.js`, with the invalid-server-type error; `.py` launches `python` and `.js` launches `node`, each with the script path as the one argument |
| `Catalog.Project` | client/mcp_client.py:40-46 | the catalog has one entry per listed tool, in listing order, holding exactly that tool's name, description and parameters |
| `Catalog.ProjectKeepsNames` | client/mcp_client.py:39-46 | the catalog's names are the listed tools' names, in the same order |
| `Catalog.ProjectInjective` | client/mcp_client.py:40-46 | two listings give the same catalog exactly when they are the same listing: the projection drops nothing |
| `Client.McpClient.constructor` | client/mcp_client.py:11-17 | a new client has no session, an empty catalog and an empty conversation |
| `Client.McpClient.Connect` | client/mcp_client.py:20-53 | a bad suffix fails before any transport is opened and changes nothing; the launch command handed to the transport is the suffix rule's; a transport failure changes nothing; once the transport opens, the session is stored, and the catalog is replaced by the projection of the listed tools only when the handshake and the listing both succeed; the conversation is untouched |
| `Client.McpClient.GetMcpTools` | client/mcp_client.py:58-67 | without a session it fails with not-connected and does not ask the session; otherwise it returns the session's listing or its failure |
| `Client.McpClient.CallLlm` | client/mcp_client.py:143-156 | the request carries the fixed model name and token ceiling, the whole conversation and the catalog; the reply is the endpoint's next response, and an endpoint with none left is a failed model call |
| `Client.McpClient.ProcessQuery` | client/mcp_client.py:70-137 | without a session it fails with not-connected, makes no call and leaves the conversation as it was; otherwise its result, the conversation it leaves and its call trace are those of `Resolver.ResolveQuery` |
| `Client.McpClient.RunCycle` | client/mcp_client.py:79-127 | one pass of the loop leaves the conversation and returns the step that `Resolver.Cycle` gives for the conversation before it |
| `Client.McpClient.ActOn` | client/mcp_client.py:97-126 | the walk over a response's blocks appends to the conversation what `Resolver.WalkBlocks` adds, and reports that walk's failure and tool calls |
| `Resolver.Cycle` | client/mcp_client.py:79-127 | a pass of the loop continues only after consuming one of the endpoint's responses |
| `Resolver.Visit` | client/mcp_client.py:98-126 | one block adds at most one message and one event; it fails exactly when it is a tool call whose call fails, and it calls a tool exactly when it is a tool call |
| `Resolver.WalkBlocks` | client/mcp_client.py:97-126 | the walk adds at most one message and one event per block, and its only failure is a failed tool call; `WalkSucceedsIff`, `WalkNarrates` and `WalkAborts` state its behaviour |
| `Resolver.Resolve` | client/mcp_client.py:79-132 | the loop's first event is the model call with the starting conversation and the catalog, and it fails only on a failed model call, an empty response or a failed tool call; `ResolveExtends`, `ResolveFinishes`, `ResolveOkFinishes` and `ResolveErrStops` state its behaviour |
| `Resolver.ResolveQuery` | client/mcp_client.py:76-132 | the conversation is reset to the user's message: it is the first message of the result, and the first model call sees it alone |
| `Resolver.WalkSucceedsIff` | client/mcp_client.py:104-126 | a walk over a response's blocks finishes without failure exactly when every tool call in it succeeds |
| `Resolver.WalkNarrates` | client/mcp_client.py:97-123 | when every tool call succeeds, the walk appends one message per text or tool-call block, in block order: the text as an assistant message, or a tool message holding one result with that block's id, its name and the tool's reply; it calls each tool once, with the block's name and arguments, in block order; other blocks add nothing |
| `Resolver.WalkAborts` | client/mcp_client.py:110-126 | when some tool call fails, the walk stops at the first failing call: it keeps what the earlier blocks appended, that call is its last event, and the error names the tool and carries its reason |
| `Resolver.WalkMessages` | client/mcp_client.py:98-123 | a walk appends only assistant text messages and tool messages whose one result answers, by id and tool name, some tool-call block of the response |
| `Resolver.WalkEvents` | client/mcp_client.py:97-123 | a walk calls only tools, never the model |
| `Resolver.WalkStops` | client/mcp_client.py:124-126 | once a tool call has failed, the blocks after it change nothing |
| `Resolver.CycleShape` | client/mcp_client.py:80-123 | each pass calls the model first and only tools after that, and only appends to the conversation |
| `Resolver.ContinueStep` | client/mcp_client.py:91-123 | for a non-empty, non-final response whose tool calls all succeed, the loop appends the whole block list as one assistant message, then the per-block messages of `WalkNarrates`, and calls the tools in block order before asking the model again with the longer conversation |
| `Resolver.ToolFailureStops` | client/mcp_client.py:110-137 | when block k is the first failing tool call, the resolution fails with that tool's error, keeps the block-list message and what blocks before k appended, and the failing call is the last thing done: no later block is processed and the model is not asked again |
| `Resolver.ResolveExtends` | client/mcp_client.py:77-132 | the loop only appends, so the conversation it started from is a prefix of the one it leaves; a successful resolution returns that conversation |
| `Resolver.ResolveFinishes` | client/mcp_client.py:79-88 | if the n-th response is a single text block and every earlier one is non-empty, not final, and has only succeeding tool calls, the resolution succeeds after exactly n model calls, and its last message is that text as an assistant message |
| `Resolver.ResolveOkFinishes` | client/mcp_client.py:79-88 | a resolution succeeds only in that situation, so a single text block is the only way the loop ends successfully |
| `Resolver.ResolveErrStops` | client/mcp_client.py:79-137 | a failed resolution failed on a model call (no response left, after one call more than there were responses, or an empty response) or on a tool call, and the failing call is the last event of the trace |
| `Resolver.ResolveAsksGrow` | client/mcp_client.py:143-150 | every model call carries the fixed model name, token ceiling and catalog, and a conversation that extends the starting one and is a prefix of the final one; the first call gets the starting conversation itself |
| `Resolver.ResolveKeepsLinks` | client/mcp_client.py:91-123 | every tool message appended holds one result whose id and tool name are those of a tool call in the block-list message appended earlier in the same cycle, with no other block list in between |
| `Resolver.QueryStartsFresh` | client/mcp_client.py:76-123 | since a resolution starts from the one user message, every tool message of the result answers, by id and tool name, a tool call of an earlier block-list message |
| `Resolver.FirstAnswerFinal` | client/mcp_client.py:80-88 | a first response that is one text block gives exactly two messages (user, assistant text) after exactly one model call |
| `Resolver.AllTextContinues` | client/mcp_client.py:82-102 | a response of two text blocks does not end the loop: the block list and both texts are appended, and the model is asked again |
| `Resolver.EmptyResponseFails` | client/mcp_client.py:82 | an empty response fails the resolution, after that one model call and with the conversation unchanged |
| `Resolver.SingleToolCallStep` | client/mcp_client.py:91-123 | a response that is one successful tool call makes exactly that tool call and appends the block list and one tool message answering it by id before the model is asked again |
| `Scenarios.ArithmeticScenario` | client/mcp_client.py:76-88 | "what is 2+2" answered by "4" gives the conversation user, assistant "4" and one model call |
| `Scenarios.ListFilesScenario` | client/mcp_client.py:76-132 | a `list_files` call answered `["a.txt"]`, then a text answer, gives four messages in the order user, block list, tool result, answer, with two model calls and one tool call between them |
| `Scenarios.LaunchScenarios` | client/mcp_client.py:23-28 | `server.rb` is refused, `weather.py` launches `python` and `weather.js` launches `node` |

## Left out

- `cleanup` (client/mcp_client.py:159-168) only closes the session and releases the transport's resources. Both are external objects, and the conversation does not depend on them.
- Logging, `traceback.print_exc()` and async/await have no effect on the conversation, the catalog or the session.
- The stdio transport, `ClientSession`, `AsyncExitStack` and the Anthropic SDK are foreign code. They are replaced by the oracles described above, and `response.to_dict()["content"]` is taken to be the block list itself.
- The model endpoint's answers do not depend on the request here. The script fixes them in advance, and the request each call carries is recorded in the trace.
- Tool replies are reduced to their `content` payload, which is all the client reads from them.
- JSON numbers are integers. Floating point is not modelled.
- api/main.py, the HTTP front end, is not part of this model. It calls a `connect_to_server` method that the client does not have, and it tests that call's result as a success flag, while `connect` returns `None`.
- log/logger.py, the logging handler setup, is not part of this model.
- The stray `\` at client/mcp_client.py:130 is a source artefact with no behaviour.
