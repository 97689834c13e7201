/**
 * The client object of client/mcp_client.py: it holds the tool session, the
 * tool catalog and the conversation in fields that its methods update in
 * place. The tool session and the model endpoint are oracles: a session is
 * the outcome of its handshake, of its tool listing and its call operation;
 * the model endpoint is the list of responses it gives, one per call.
 */
module Client {
  import opened Wrappers
  import opened Conversation
  import opened Launcher
  import opened Catalog
  import opened Resolver

  /** A session over an opened transport, described by how each of its operations answers. */
  datatype Session = Session(
    initialize: Option<string>,             // None: the handshake succeeds; Some(reason): it fails
    listing: Result<seq<McpTool>, string>,  // what listing the tools gives
    callTool: ToolFn)                       // what calling a tool gives

  /** Opening the stdio transport and a session on it for a launch command: the session or why it failed. */
  type Transport = Launch -> Result<Session, string>

  class McpClient {
    var session: Option<Session>
    var tools: seq<ToolEntry>
    var messages: seq<Message>

    constructor ()
      ensures session.None? && tools == [] && messages == []
    {
      session := None;
      tools := [];
      messages := [];
    }

    /**
     * Connects to the server script at `path`: picks the launcher by suffix,
     * opens the transport, keeps the session, runs its handshake and stores
     * the catalog of its tools. `launched` is the command handed to the
     * transport, if any.
     */
    method Connect(path: string, open: Transport) returns (r: Result<(), Error>, launched: Option<Launch>)
      modifies this`session, this`tools
      ensures launched == (if LaunchFor(path).Ok? then Some(LaunchFor(path).value) else None)
      ensures messages == old(messages)
      // a bad suffix fails before any transport is opened, and nothing changes
      ensures LaunchFor(path).Err? ==>
        r == Err(InvalidServerType) && session == old(session) && tools == old(tools)
      // the transport fails: nothing changes
      ensures LaunchFor(path).Ok? && open(LaunchFor(path).value).Err? ==>
        r == Err(TransportFailed(open(LaunchFor(path).value).error)) &&
        session == old(session) && tools == old(tools)
      // the transport opens: the session is kept even if what follows fails
      ensures LaunchFor(path).Ok? && open(LaunchFor(path).value).Ok? ==>
        var s := open(LaunchFor(path).value).value;
        session == Some(s) &&
        (s.initialize.Some? ==> r == Err(InitializeFailed(s.initialize.value)) && tools == old(tools)) &&
        (s.initialize.None? && s.listing.Err? ==> r == Err(ListToolsFailed(s.listing.error)) && tools == old(tools)) &&
        (s.initialize.None? && s.listing.Ok? ==> r == Ok(()) && tools == Project(s.listing.value))
    {
      launched := None;
      var launch := LaunchFor(path);
      if launch.Err? {
        r := Err(launch.error);
        return;
      }
      launched := Some(launch.value);
      var channel := open(launch.value);
      if channel.Err? {
        r := Err(TransportFailed(channel.error));
        return;
      }
      session := Some(channel.value);
      if channel.value.initialize.Some? {
        r := Err(InitializeFailed(channel.value.initialize.value));
        return;
      }
      var listed := GetMcpTools();
      if listed.Err? {
        r := Err(listed.error);
        return;
      }
      tools := Project(listed.value);
      r := Ok(());
    }

    /** Lists the session's tools; without a session it fails without asking it. */
    method GetMcpTools() returns (r: Result<seq<McpTool>, Error>)
      ensures session.None? ==> r == Err(NotConnected)
      ensures session.Some? && session.value.listing.Ok? ==> r == Ok(session.value.listing.value)
      ensures session.Some? && session.value.listing.Err? ==> r == Err(ListToolsFailed(session.value.listing.error))
    {
      if session.None? {
        return Err(NotConnected);
      }
      match session.value.listing
      case Ok(listed) => r := Ok(listed);
      case Err(reason) => r := Err(ListToolsFailed(reason));
    }

    /**
     * One model call: the request carries the fixed model and token ceiling,
     * the conversation and the catalog; the reply is the endpoint's next
     * response, and an endpoint with none left is a failed call.
     */
    method CallLlm(replies: seq<Response>) returns (r: Result<Response, Error>, request: Request)
      ensures request == Request(ModelName, messages, tools, MaxTokens)
      ensures replies == [] ==> r == Err(ModelCallFailed)
      ensures replies != [] ==> r == Ok(replies[0])
    {
      request := Request(ModelName, messages, tools, MaxTokens);
      if replies == [] {
        r := Err(ModelCallFailed);
      } else {
        r := Ok(replies[0]);
      }
    }

    /**
     * Resolves `query`: resets the conversation to the one user message, then
     * asks the model and acts on its response until a response is one text
     * block. `trace` is every model and tool call made, in order. Without a
     * session it fails at once and leaves the conversation alone; otherwise
     * the outcome, the conversation left behind (also on failure) and the
     * trace are those of Resolver.ResolveQuery.
     */
    method ProcessQuery(query: string, replies: seq<Response>) returns (r: Result<seq<Message>, Error>, trace: seq<Event>)
      modifies this`messages
      ensures session.None? ==> r == Err(NotConnected) && trace == [] && messages == old(messages)
      ensures session.Some? ==>
        var run := ResolveQuery(query, replies, tools, session.value.callTool);
        r == run.result && messages == run.conversation && trace == run.trace
    {
      if session.None? {
        return Err(NotConnected), [];
      }
      var call := session.value.callTool;
      ghost var full := ResolveQuery(query, replies, tools, call);
      messages := [UserMessage(query)];
      trace := [];
      var pending := replies;
      while true
        invariant After(trace, Resolve(messages, pending, tools, call)) == full
        decreases |pending|
      {
        var step := RunCycle(pending, call);
        match step {
          case Stop(run) =>
            trace := trace + run.trace;
            return run.result, trace;
          case Continue(_, events) =>
            trace := trace + events;
            pending := pending[1..];
        }
      }
    }

    /**
     * One pass of the loop: asks the model, then either ends the resolution
     * (a failed or empty response, or a final one whose text is appended) or
     * appends the whole response and walks its blocks. The conversation is
     * left as the step says, on failure too.
     */
    method RunCycle(pending: seq<Response>, call: ToolFn) returns (step: Step)
      modifies this`messages
      ensures step == Cycle(old(messages), pending, tools, call)
      ensures messages == (if step.Stop? then step.run.conversation else step.next)
    {
      ghost var start := messages;
      var reply, request := CallLlm(pending);
      var ask := ModelCall(request);
      if reply.Err? {
        return Stop(Run(Err(reply.error), messages, [ask]));
      }
      var response := reply.value;
      if response == [] {
        return Stop(Run(Err(EmptyResponse), messages, [ask]));
      }
      if response[0].Text? && |response| == 1 {
        messages := messages + [AssistantText(response[0].text)];
        return Stop(Run(Ok(messages), messages, [ask]));
      }
      messages := messages + [AssistantBlocks(response)];
      var failure, events := ActOn(response, call);
      if failure.Some? {
        return Stop(Run(Err(failure.value), messages, [ask] + events));
      }
      step := Continue(messages, [ask] + events);
    }

    /**
     * The walk over one response's blocks, in order: a text block appends an
     * assistant message, a tool call calls the tool and appends its result
     * under the call's id, anything else is skipped; a failing tool call
     * stops the walk. `events` are the tool calls made.
     */
    method ActOn(response: Response, call: ToolFn) returns (failure: Option<Error>, events: seq<Event>)
      modifies this`messages
      ensures messages == old(messages) + WalkBlocks(response, call).appended
      ensures failure == WalkBlocks(response, call).failure
      ensures events == WalkBlocks(response, call).events
    {
      ghost var before := messages;
      events := [];
      var i := 0;
      while i < |response|
        invariant 0 <= i <= |response|
        invariant WalkBlocks(response[..i], call).failure.None?
        invariant messages == before + WalkBlocks(response[..i], call).appended
        invariant events == WalkBlocks(response[..i], call).events
      {
        assert response[..i + 1][..i] == response[..i];
        match response[i] {
          case Text(t) =>
            messages := messages + [AssistantText(t)];
          case ToolCall(id, name, input) =>
            events := events + [ToolInvoke(name, input)];
            var result := call(name, input);
            if result.Err? {
              WalkStops(response, call, i + 1);
              return Some(ToolCallFailed(name, result.error)), events;
            }
            messages := messages + [ToolMessage(id, name, result.value)];
          case Other(_) =>
        }
        i := i + 1;
      }
      assert response[..i] == response;
      failure := None;
    }
  }
}
