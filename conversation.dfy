/**
 * The data the client passes between the model endpoint, the tool session
 * and its own conversation list (client/mcp_client.py).
 */
module Conversation {
  import opened Wrappers

  /** A JSON value: tool arguments, parameter schemas and tool replies. Numbers are integers here. */
  datatype Json =
    | Null
    | Bool(b: bool)
    | Number(n: int)
    | Str(s: string)
    | Array(items: seq<Json>)
    | Object(fields: seq<(string, Json)>)

  /** One content block of a model response, told apart by its "type" tag. */
  datatype Block =
    | Text(text: string)                               // type "text"
    | ToolCall(id: string, name: string, input: Json)  // type "tool_call"
    | Other(raw: Json)                                 // any other type, kept as it came

  /** A model response is its ordered list of content blocks. */
  type Response = seq<Block>

  /** The single entry of a tool message: which call it answers and what the tool returned. */
  datatype ToolResult = ToolResult(toolName: string, toolUseId: string, content: Json)

  datatype Role = User | Assistant | Tool

  /** Message content: a plain string, a response's block list, or tool results. */
  datatype Content =
    | Plain(text: string)
    | Blocks(blocks: seq<Block>)
    | Results(results: seq<ToolResult>)

  datatype Message = Message(role: Role, content: Content)

  /** A tool as the session lists it. */
  datatype McpTool = McpTool(name: string, description: string, parameters: Json)

  /** A tool as the client hands it to the model. */
  datatype ToolEntry = ToolEntry(name: string, description: string, parameters: Json)

  /** The fixed arguments of every model call. */
  const ModelName: string := "claude-2"
  const MaxTokens: nat := 1000

  datatype Request = Request(model: string, messages: seq<Message>, tools: seq<ToolEntry>, maxTokens: nat)

  /** An interaction with one of the two collaborators, in the order it happens. */
  datatype Event =
    | ModelCall(request: Request)
    | ToolInvoke(name: string, input: Json)

  /** The ways connecting, listing tools or resolving a query fail. */
  datatype Error =
    | InvalidServerType               // the script is neither .py nor .js
    | TransportFailed(reason: string)  // the transport or the session could not be opened
    | InitializeFailed(reason: string) // the session's handshake failed
    | NotConnected                     // no session
    | ListToolsFailed(reason: string)  // the session could not list its tools
    | ModelCallFailed                  // the model endpoint gave no response
    | EmptyResponse                    // a response with no block: reading its first block fails
    | ToolCallFailed(name: string, reason: string)

  /** The tool session's call operation: tool name and arguments to a reply payload or a failure. */
  type ToolFn = (string, Json) -> Result<Json, string>

  function UserMessage(query: string): Message
  {
    Message(User, Plain(query))
  }

  function AssistantText(text: string): Message
  {
    Message(Assistant, Plain(text))
  }

  function AssistantBlocks(blocks: seq<Block>): Message
  {
    Message(Assistant, Blocks(blocks))
  }

  function ToolMessage(id: string, name: string, payload: Json): Message
  {
    Message(Tool, Results([ToolResult(name, id, payload)]))
  }

  function Ask(conversation: seq<Message>, tools: seq<ToolEntry>): Event
  {
    ModelCall(Request(ModelName, conversation, tools, MaxTokens))
  }
}
