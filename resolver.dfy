/**
 * The query-resolution loop of client/mcp_client.py (process_query) as a
 * function of its inputs: the conversation it starts from, the responses the
 * model endpoint gives in turn, the tool catalog and the session's call
 * operation. The loop in Client.McpClient.ProcessQuery is proved equal to it;
 * the lemmas below state what the loop promises.
 */
module Resolver {
  import opened Wrappers
  import opened Conversation

  // ---------------------------------------------------------------------------
  // Walking the blocks of one response (the inner for loop)
  // ---------------------------------------------------------------------------

  /** What walking some blocks has added: messages, collaborator calls, and the failure that stopped it, if any. */
  datatype Walk = Walk(appended: seq<Message>, events: seq<Event>, failure: Option<Error>)

  /** The effect of one block: a text block narrates, a tool call runs the tool, anything else is skipped. */
  function Visit(b: Block, call: ToolFn): (w: Walk)
    ensures |w.appended| <= 1 && |w.events| <= 1
    ensures w.failure.Some? <==> b.ToolCall? && call(b.name, b.input).Err?
    ensures w.events != [] <==> b.ToolCall?
  {
    match b
    case Text(t) => Walk([AssistantText(t)], [], None)
    case ToolCall(id, name, input) =>
      (match call(name, input)
       case Ok(payload) => Walk([ToolMessage(id, name, payload)], [ToolInvoke(name, input)], None)
       case Err(reason) => Walk([], [ToolInvoke(name, input)], Some(ToolCallFailed(name, reason))))
    case Other(_) => Walk([], [], None)
  }

  /** Walking blocks in order: the walk of all but the last block, then the last block unless a tool failed. */
  function WalkBlocks(blocks: seq<Block>, call: ToolFn): (w: Walk)
    ensures |w.appended| <= |blocks| && |w.events| <= |blocks|
    ensures w.failure.Some? ==> w.failure.value.ToolCallFailed?
    decreases |blocks|
  {
    if blocks == [] then Walk([], [], None)
    else
      var done := WalkBlocks(blocks[..|blocks| - 1], call);
      if done.failure.Some? then done
      else
        var step := Visit(blocks[|blocks| - 1], call);
        Walk(done.appended + step.appended, done.events + step.events, step.failure)
  }

  // ---------------------------------------------------------------------------
  // The outer loop
  // ---------------------------------------------------------------------------

  /** The termination test: exactly one block, and that block is text. */
  predicate IsFinal(response: Response)
  {
    |response| == 1 && response[0].Text?
  }

  /** A resolution's outcome: the returned conversation or the error, the conversation as left, and every collaborator call in order. */
  datatype Run = Run(result: Result<seq<Message>, Error>, conversation: seq<Message>, trace: seq<Event>)

  /** What one cycle leads to: the end of the resolution, or a longer conversation to ask the model about again. */
  datatype Step =
    | Stop(run: Run)
    | Continue(next: seq<Message>, events: seq<Event>)

  /**
   * One cycle from `conversation`, with `replies` the responses the model
   * endpoint still has to give. It first asks the model: running out of
   * replies is a failed model call and an empty response fails on reading its
   * first block; a final response appends its text and ends the resolution;
   * any other response is appended whole and its blocks are walked.
   */
  function Cycle(conversation: seq<Message>, replies: seq<Response>, tools: seq<ToolEntry>, call: ToolFn): (s: Step)
    ensures s.Continue? ==> replies != []
  {
    var ask := Ask(conversation, tools);
    if replies == [] then
      Stop(Run(Err(ModelCallFailed), conversation, [ask]))
    else
      var response := replies[0];
      if response == [] then
        Stop(Run(Err(EmptyResponse), conversation, [ask]))
      else if IsFinal(response) then
        var answered := conversation + [AssistantText(response[0].text)];
        Stop(Run(Ok(answered), answered, [ask]))
      else
        var w := WalkBlocks(response, call);
        var next := conversation + [AssistantBlocks(response)] + w.appended;
        if w.failure.Some? then
          Stop(Run(Err(w.failure.value), next, [ask] + w.events))
        else
          Continue(next, [ask] + w.events)
  }

  /** The loop: cycles until one stops, each consuming one of the replies. */
  function Resolve(conversation: seq<Message>, replies: seq<Response>, tools: seq<ToolEntry>, call: ToolFn): (r: Run)
    ensures r.trace != [] && r.trace[0] == Ask(conversation, tools)
    ensures r.result.Err? ==>
      r.result.error == ModelCallFailed || r.result.error == EmptyResponse || r.result.error.ToolCallFailed?
    decreases |replies|
  {
    match Cycle(conversation, replies, tools, call)
    case Stop(run) => run
    case Continue(next, events) => After(events, Resolve(next, replies[1..], tools, call))
  }

  /** A run preceded by the events `before` it. */
  function After(before: seq<Event>, run: Run): Run
  {
    Run(run.result, run.conversation, before + run.trace)
  }

  /** A whole resolution of `query`: the conversation is reset to the one user message. */
  function ResolveQuery(query: string, replies: seq<Response>, tools: seq<ToolEntry>, call: ToolFn): (r: Run)
    ensures r.conversation != [] && r.conversation[0] == UserMessage(query)
    ensures r.trace != [] && r.trace[0] == Ask([UserMessage(query)], tools)
  {
    ResolveExtends([UserMessage(query)], replies, tools, call);
    Resolve([UserMessage(query)], replies, tools, call)
  }

  // ---------------------------------------------------------------------------
  // Reference descriptions
  // ---------------------------------------------------------------------------

  /** Every tool call in the blocks succeeds. */
  ghost predicate AllCallsSucceed(blocks: seq<Block>, call: ToolFn)
  {
    forall i :: 0 <= i < |blocks| && blocks[i].ToolCall? ==> call(blocks[i].name, blocks[i].input).Ok?
  }

  /** Block k is the first tool call that fails. */
  ghost predicate FirstFailure(blocks: seq<Block>, call: ToolFn, k: int)
  {
    0 <= k < |blocks| && blocks[k].ToolCall? && call(blocks[k].name, blocks[k].input).Err? &&
    forall i :: 0 <= i < k && blocks[i].ToolCall? ==> call(blocks[i].name, blocks[i].input).Ok?
  }

  /** The walk of `blocks` is the walk of the blocks before k, then the failing call of block k. */
  ghost predicate StopsAt(blocks: seq<Block>, call: ToolFn, k: int)
    requires FirstFailure(blocks, call, k)
  {
    WalkBlocks(blocks, call) == Walk(
      WalkBlocks(blocks[..k], call).appended,
      WalkBlocks(blocks[..k], call).events + [ToolInvoke(blocks[k].name, blocks[k].input)],
      Some(ToolCallFailed(blocks[k].name, call(blocks[k].name, blocks[k].input).error)))
  }

  /** The blocks a walk acts on, in order: text blocks and tool calls. */
  function Acted(blocks: seq<Block>): (r: seq<Block>)
    ensures forall i :: 0 <= i < |r| ==> !r[i].Other? && r[i] in blocks
    decreases |blocks|
  {
    if blocks == [] then []
    else
      var last := blocks[|blocks| - 1];
      var front := Acted(blocks[..|blocks| - 1]);
      assert forall b :: b in blocks[..|blocks| - 1] ==> b in blocks;
      if last.Other? then front else front + [last]
  }

  /** One tool invocation per tool-call block, with that block's name and arguments, in block order. */
  function Invocations(blocks: seq<Block>): (r: seq<Event>)
    ensures forall i :: 0 <= i < |r| ==> r[i].ToolInvoke?
    decreases |blocks|
  {
    if blocks == [] then []
    else
      var last := blocks[|blocks| - 1];
      var front := Invocations(blocks[..|blocks| - 1]);
      if last.ToolCall? then front + [ToolInvoke(last.name, last.input)] else front
  }

  /** Message `m` is the one block `b` adds: its text, or its call's result under its id and name. */
  ghost predicate Narrates(m: Message, b: Block, call: ToolFn)
  {
    match b
    case Text(t) => m == AssistantText(t)
    case ToolCall(id, name, input) => call(name, input).Ok? && m == ToolMessage(id, name, call(name, input).value)
    case Other(_) => false
  }

  /** Tool message `m` holds one result, answering a tool call among `blocks` by id and name. */
  ghost predicate Answers(m: Message, blocks: seq<Block>)
  {
    m.content.Results? && |m.content.results| == 1 &&
    exists j :: 0 <= j < |blocks| && Answered(blocks[j], m.content.results[0])
  }

  predicate Answered(b: Block, r: ToolResult)
  {
    b.ToolCall? && b.id == r.toolUseId && b.name == r.toolName
  }

  /** A message a walk may add: assistant text, or a tool message answering one of `blocks`. */
  ghost predicate WalkMessage(m: Message, blocks: seq<Block>)
  {
    (m.role == Assistant && m.content.Plain?) || (m.role == Tool && Answers(m, blocks))
  }

  /** Every tool message answers a tool call of the latest block-list message before it. */
  ghost predicate WellLinked(conversation: seq<Message>)
  {
    forall i :: 0 <= i < |conversation| && conversation[i].role == Tool ==>
      exists j :: 0 <= j < i && IssuedBy(conversation, j, i)
  }

  /** Message j is the block-list message that message i answers, and no other block list lies between. */
  ghost predicate IssuedBy(conversation: seq<Message>, j: int, i: int)
    requires 0 <= j < i < |conversation|
  {
    conversation[j].role == Assistant && conversation[j].content.Blocks? &&
    Answers(conversation[i], conversation[j].content.blocks) &&
    forall k :: j < k < i ==> !conversation[k].content.Blocks?
  }

  /** The number of model calls in a trace. */
  function Asks(trace: seq<Event>): nat
  {
    if trace == [] then 0 else (if trace[0].ModelCall? then 1 else 0) + Asks(trace[1..])
  }

  /** The replies before a final one: each non-empty, not final, and all its tool calls succeed. */
  ghost predicate Continuing(replies: seq<Response>, call: ToolFn)
  {
    forall j :: 0 <= j < |replies| ==>
      replies[j] != [] && !IsFinal(replies[j]) && AllCallsSucceed(replies[j], call)
  }

  function Last<T>(s: seq<T>): T
    requires s != []
  {
    s[|s| - 1]
  }

  // ---------------------------------------------------------------------------
  // Lemmas about one walk
  // ---------------------------------------------------------------------------

  /** A walk finishes without failure exactly when every tool call in it succeeds. */
  lemma {:induction false} WalkSucceedsIff(blocks: seq<Block>, call: ToolFn)
    ensures WalkBlocks(blocks, call).failure.None? <==> AllCallsSucceed(blocks, call)
    decreases |blocks|
  {
    if blocks != [] {
      var front := blocks[..|blocks| - 1];
      WalkSucceedsIff(front, call);
      assert forall i :: 0 <= i < |front| ==> front[i] == blocks[i];
    }
  }

  /**
   * A walk whose tool calls all succeed adds one message per text or tool-call
   * block, in block order, each the one its block calls for, and calls each
   * tool once, in block order.
   */
  lemma {:induction false} WalkNarrates(blocks: seq<Block>, call: ToolFn)
    requires AllCallsSucceed(blocks, call)
    ensures WalkBlocks(blocks, call).failure.None?
    ensures WalkBlocks(blocks, call).events == Invocations(blocks)
    ensures |WalkBlocks(blocks, call).appended| == |Acted(blocks)|
    ensures forall i :: 0 <= i < |Acted(blocks)| ==>
      Narrates(WalkBlocks(blocks, call).appended[i], Acted(blocks)[i], call)
    decreases |blocks|
  {
    if blocks != [] {
      var front := blocks[..|blocks| - 1];
      assert forall i :: 0 <= i < |front| ==> front[i] == blocks[i];
      WalkNarrates(front, call);
    }
  }

  /**
   * A walk in which some tool call fails stops at the first failing call: it
   * keeps what the blocks before it added, that call is its last event, and
   * the failure names the tool and carries its error.
   */
  lemma {:induction false} WalkAborts(blocks: seq<Block>, call: ToolFn)
    requires !AllCallsSucceed(blocks, call)
    ensures exists k :: FirstFailure(blocks, call, k) && StopsAt(blocks, call, k)
    decreases |blocks|
  {
    var n := |blocks|;
    var front := blocks[..n - 1];
    assert forall i :: 0 <= i < |front| ==> front[i] == blocks[i];
    if AllCallsSucceed(front, call) {
      WalkSucceedsIff(front, call);
      assert FirstFailure(blocks, call, n - 1);
    } else {
      WalkAborts(front, call);
      var k :| FirstFailure(front, call, k) && StopsAt(front, call, k);
      assert front[..k] == blocks[..k];
      assert FirstFailure(blocks, call, k);
    }
  }

  /** A walk adds only assistant text and tool messages that answer its own tool calls. */
  lemma {:induction false} WalkMessages(blocks: seq<Block>, call: ToolFn)
    ensures forall m :: m in WalkBlocks(blocks, call).appended ==> WalkMessage(m, blocks)
    decreases |blocks|
  {
    if blocks != [] {
      var n := |blocks|;
      var front := blocks[..n - 1];
      WalkMessages(front, call);
      var done := WalkBlocks(front, call);
      forall m | m in done.appended ensures WalkMessage(m, blocks) {
        if m.role == Tool {
          var j :| 0 <= j < |front| && Answered(front[j], m.content.results[0]);
          assert front[j] == blocks[j];
        }
      }
      if done.failure.None? {
        var step := Visit(blocks[n - 1], call);
        forall m | m in step.appended ensures WalkMessage(m, blocks) {
          if m.role == Tool {
            assert Answered(blocks[n - 1], m.content.results[0]);
          }
        }
        assert forall m :: m in done.appended + step.appended ==> m in done.appended || m in step.appended;
      }
    }
  }

  /** A walk only calls tools, never the model. */
  lemma {:induction false} WalkEvents(blocks: seq<Block>, call: ToolFn)
    ensures forall e :: e in WalkBlocks(blocks, call).events ==> e.ToolInvoke?
    ensures Asks(WalkBlocks(blocks, call).events) == 0
    decreases |blocks|
  {
    if blocks != [] {
      var front := blocks[..|blocks| - 1];
      WalkEvents(front, call);
      var done := WalkBlocks(front, call);
      if done.failure.None? {
        var step := Visit(blocks[|blocks| - 1], call);
        AsksAppend(done.events, step.events);
      }
    }
  }

  /** Once a prefix of the blocks has failed, the rest of the blocks change nothing. */
  lemma {:induction false} WalkStops(blocks: seq<Block>, call: ToolFn, j: nat)
    requires j <= |blocks|
    requires WalkBlocks(blocks[..j], call).failure.Some?
    ensures WalkBlocks(blocks, call) == WalkBlocks(blocks[..j], call)
    decreases |blocks| - j
  {
    if j < |blocks| {
      var front := blocks[..|blocks| - 1];
      assert front[..j] == blocks[..j];
      WalkStops(front, call, j);
    } else {
      assert blocks[..j] == blocks;
    }
  }

  lemma {:induction false} AsksAppend(a: seq<Event>, b: seq<Event>)
    ensures Asks(a + b) == Asks(a) + Asks(b)
    decreases |a|
  {
    if a == [] {
      assert a + b == b;
    } else {
      assert (a + b)[1..] == a[1..] + b;
      AsksAppend(a[1..], b);
    }
  }

  // ---------------------------------------------------------------------------
  // Lemmas about one cycle
  // ---------------------------------------------------------------------------

  /**
   * A response that is neither empty nor final and whose tool calls all
   * succeed: before the next model call the loop appends the whole block list
   * as one assistant message, then one message per text or tool-call block in
   * block order, and calls each tool once in block order.
   */
  lemma ContinueStep(conversation: seq<Message>, replies: seq<Response>, tools: seq<ToolEntry>, call: ToolFn)
    requires replies != [] && replies[0] != [] && !IsFinal(replies[0])
    requires AllCallsSucceed(replies[0], call)
    ensures var response := replies[0];
      var w := WalkBlocks(response, call);
      var rest := Resolve(conversation + [AssistantBlocks(response)] + w.appended, replies[1..], tools, call);
      Resolve(conversation, replies, tools, call) ==
        Run(rest.result, rest.conversation, [Ask(conversation, tools)] + Invocations(response) + rest.trace) &&
      |w.appended| == |Acted(response)| &&
      (forall i :: 0 <= i < |Acted(response)| ==> Narrates(w.appended[i], Acted(response)[i], call))
  {
    WalkNarrates(replies[0], call);
  }

  /**
   * A response whose k-th block is the first failing tool call: the resolution
   * fails with that call's error, the conversation keeps the block list and
   * what the blocks before k added, and that call is the last thing done.
   */
  lemma ToolFailureStops(conversation: seq<Message>, replies: seq<Response>, tools: seq<ToolEntry>, call: ToolFn, k: int)
    requires replies != [] && replies[0] != [] && !IsFinal(replies[0])
    requires FirstFailure(replies[0], call, k)
    ensures var response := replies[0];
      var before := WalkBlocks(response[..k], call);
      Resolve(conversation, replies, tools, call) ==
        Run(Err(ToolCallFailed(response[k].name, call(response[k].name, response[k].input).error)),
            conversation + [AssistantBlocks(response)] + before.appended,
            [Ask(conversation, tools)] + Invocations(response[..k]) + [ToolInvoke(response[k].name, response[k].input)])
  {
    var response := replies[0];
    assert !AllCallsSucceed(response, call);
    WalkAborts(response, call);
    var k' :| FirstFailure(response, call, k') && StopsAt(response, call, k');
    assert k == k';
    assert forall i :: 0 <= i < k ==> response[..k][i] == response[i];
    WalkNarrates(response[..k], call);
  }

  // ---------------------------------------------------------------------------
  // Lemmas about a whole resolution
  // ---------------------------------------------------------------------------

  /** The loop only appends, and a successful resolution returns the conversation it built. */
  lemma {:induction false} ResolveExtends(conversation: seq<Message>, replies: seq<Response>, tools: seq<ToolEntry>, call: ToolFn)
    ensures conversation <= Resolve(conversation, replies, tools, call).conversation
    ensures Resolve(conversation, replies, tools, call).result.Ok? ==>
      Resolve(conversation, replies, tools, call).result.value == Resolve(conversation, replies, tools, call).conversation
    decreases |replies|
  {
    if replies != [] && replies[0] != [] && !IsFinal(replies[0]) {
      var w := WalkBlocks(replies[0], call);
      if w.failure.None? {
        ResolveExtends(conversation + [AssistantBlocks(replies[0])] + w.appended, replies[1..], tools, call);
      }
    }
  }

  /** The responses `replies` lead to a final answer at the n-th model call. */
  ghost predicate FinishesAt(replies: seq<Response>, call: ToolFn, n: int)
  {
    1 <= n <= |replies| && Continuing(replies[..n - 1], call) && IsFinal(replies[n - 1])
  }

  /**
   * When the n-th response is the first final one and every earlier one
   * continues, the resolution succeeds after exactly n model calls and ends
   * with that response's text as an assistant message.
   */
  lemma {:induction false} ResolveFinishes(conversation: seq<Message>, replies: seq<Response>, tools: seq<ToolEntry>, call: ToolFn, n: int)
    requires FinishesAt(replies, call, n)
    ensures Resolve(conversation, replies, tools, call).result.Ok?
    ensures Asks(Resolve(conversation, replies, tools, call).trace) == n
    ensures Resolve(conversation, replies, tools, call).conversation != [] &&
      Last(Resolve(conversation, replies, tools, call).conversation) == AssistantText(replies[n - 1][0].text)
    decreases n
  {
    assert replies[0] in replies[..n - 1] || n == 1;
    if n > 1 {
      assert replies[..n - 1][0] == replies[0];
      var w := WalkBlocks(replies[0], call);
      WalkSucceedsIff(replies[0], call);
      WalkEvents(replies[0], call);
      var next := conversation + [AssistantBlocks(replies[0])] + w.appended;
      assert replies[1..][..n - 2] == replies[..n - 1][1..];
      assert FinishesAt(replies[1..], call, n - 1);
      ResolveFinishes(next, replies[1..], tools, call, n - 1);
      var rest := Resolve(next, replies[1..], tools, call);
      AsksAppend([Ask(conversation, tools)] + w.events, rest.trace);
      AsksAppend([Ask(conversation, tools)], w.events);
    }
  }

  /** A resolution succeeds only if some model call gives the first final response after continuing ones. */
  lemma {:induction false} ResolveOkFinishes(conversation: seq<Message>, replies: seq<Response>, tools: seq<ToolEntry>, call: ToolFn)
    requires Resolve(conversation, replies, tools, call).result.Ok?
    ensures exists n :: FinishesAt(replies, call, n)
    decreases |replies|
  {
    if IsFinal(replies[0]) {
      assert FinishesAt(replies, call, 1);
    } else {
      var w := WalkBlocks(replies[0], call);
      WalkSucceedsIff(replies[0], call);
      var next := conversation + [AssistantBlocks(replies[0])] + w.appended;
      ResolveOkFinishes(next, replies[1..], tools, call);
      var m :| FinishesAt(replies[1..], call, m);
      assert replies[..m] == [replies[0]] + replies[1..][..m - 1];
      assert FinishesAt(replies, call, m + 1);
    }
  }

  /** How a failed resolution ended: the event that failed is the last one, and nothing is called after it. */
  ghost predicate EndsOn(error: Error, last: Event, call: ToolFn)
  {
    match error
    case ModelCallFailed => last.ModelCall?
    case EmptyResponse => last.ModelCall?
    case ToolCallFailed(name, reason) =>
      last.ToolInvoke? && last.name == name && call(name, last.input) == Err(reason)
    case _ => false
  }

  /**
   * A failed resolution fails on a model call (the endpoint had no more
   * responses, after one call more than it had responses, or it gave an empty
   * one) or on a tool call, and the failing call is the last event of the trace.
   */
  lemma {:induction false} ResolveErrStops(conversation: seq<Message>, replies: seq<Response>, tools: seq<ToolEntry>, call: ToolFn)
    requires Resolve(conversation, replies, tools, call).result.Err?
    ensures Resolve(conversation, replies, tools, call).trace != []
    ensures EndsOn(Resolve(conversation, replies, tools, call).result.error,
                   Last(Resolve(conversation, replies, tools, call).trace), call)
    ensures Resolve(conversation, replies, tools, call).result.error == ModelCallFailed ==>
      Asks(Resolve(conversation, replies, tools, call).trace) == |replies| + 1
    decreases |replies|
  {
    if replies != [] && replies[0] != [] && !IsFinal(replies[0]) {
      var response := replies[0];
      var ask := Ask(conversation, tools);
      var w := WalkBlocks(response, call);
      WalkEvents(response, call);
      if w.failure.Some? {
        WalkSucceedsIff(response, call);
        WalkAborts(response, call);
        var k :| FirstFailure(response, call, k) && StopsAt(response, call, k);
        assert Last([ask] + w.events) == ToolInvoke(response[k].name, response[k].input);
      } else {
        var next := conversation + [AssistantBlocks(response)] + w.appended;
        var rest := Resolve(next, replies[1..], tools, call);
        ResolveErrStops(next, replies[1..], tools, call);
        assert Last([ask] + w.events + rest.trace) == Last(rest.trace);
        AsksAppend([ask] + w.events, rest.trace);
        AsksAppend([ask], w.events);
      }
    }
  }

  /**
   * Every model call gets the fixed model name, token ceiling and tool
   * catalog, and a conversation that extends the starting one and is a prefix
   * of the final one; the first call gets the starting conversation itself.
   */
  lemma {:induction false} ResolveAsksGrow(conversation: seq<Message>, replies: seq<Response>, tools: seq<ToolEntry>, call: ToolFn)
    ensures Resolve(conversation, replies, tools, call).trace != []
    ensures Resolve(conversation, replies, tools, call).trace[0] == Ask(conversation, tools)
    ensures forall i :: (0 <= i < |Resolve(conversation, replies, tools, call).trace| &&
                         Resolve(conversation, replies, tools, call).trace[i].ModelCall?) ==>
        AskedWithin(Resolve(conversation, replies, tools, call).trace[i].request,
                    conversation, Resolve(conversation, replies, tools, call).conversation, tools)
    decreases |replies|
  {
    var c := Cycle(conversation, replies, tools, call);
    CycleShape(conversation, replies, tools, call);
    if c.Continue? {
      var rest := Resolve(c.next, replies[1..], tools, call);
      ResolveAsksGrow(c.next, replies[1..], tools, call);
      ResolveExtends(c.next, replies[1..], tools, call);
      var r := Resolve(conversation, replies, tools, call);
      assert r == After(c.events, rest);
      forall i | |c.events| <= i < |r.trace| ensures r.trace[i] == rest.trace[i - |c.events|] {
      }
    }
  }

  /** One cycle calls the model first and then only tools, and only appends to the conversation. */
  lemma CycleShape(conversation: seq<Message>, replies: seq<Response>, tools: seq<ToolEntry>, call: ToolFn)
    ensures var c := Cycle(conversation, replies, tools, call);
      var events := if c.Stop? then c.run.trace else c.events;
      events != [] && events[0] == Ask(conversation, tools) &&
      (forall i :: 1 <= i < |events| ==> events[i].ToolInvoke?) &&
      conversation <= (if c.Stop? then c.run.conversation else c.next)
  {
    if replies != [] && replies[0] != [] && !IsFinal(replies[0]) {
      var w := WalkBlocks(replies[0], call);
      WalkEvents(replies[0], call);
      forall i | 0 <= i < |w.events| ensures w.events[i].ToolInvoke? {
        assert w.events[i] in w.events;
      }
    }
  }

  /** A request with the fixed model and ceiling, the catalog, and a conversation between `first` and `last`. */
  ghost predicate AskedWithin(request: Request, first: seq<Message>, last: seq<Message>, tools: seq<ToolEntry>)
  {
    request == Request(ModelName, request.messages, tools, MaxTokens) &&
    first <= request.messages <= last
  }

  lemma LinkedAfterCycle(conversation: seq<Message>, response: Response, added: seq<Message>)
    requires WellLinked(conversation)
    requires forall m :: m in added ==> WalkMessage(m, response)
    ensures WellLinked(conversation + [AssistantBlocks(response)] + added)
  {
    var c := conversation + [AssistantBlocks(response)] + added;
    var n := |conversation|;
    forall i | 0 <= i < |c| && c[i].role == Tool
      ensures exists j :: 0 <= j < i && IssuedBy(c, j, i)
    {
      if i < n {
        var j :| 0 <= j < i && IssuedBy(conversation, j, i);
        assert forall k :: 0 <= k <= i ==> c[k] == conversation[k];
        assert IssuedBy(c, j, i);
      } else {
        assert i > n;
        assert c[i] == added[i - n - 1] && c[i] in added;
        forall k | n < k < i ensures !c[k].content.Blocks? {
          assert c[k] == added[k - n - 1] && c[k] in added;
        }
        assert IssuedBy(c, n, i);
      }
    }
  }

  lemma LinkedAfterAnswer(conversation: seq<Message>, text: string)
    requires WellLinked(conversation)
    ensures WellLinked(conversation + [AssistantText(text)])
  {
    var c := conversation + [AssistantText(text)];
    forall i | 0 <= i < |c| && c[i].role == Tool
      ensures exists j :: 0 <= j < i && IssuedBy(c, j, i)
    {
      var j :| 0 <= j < i && IssuedBy(conversation, j, i);
      assert forall k :: 0 <= k <= i ==> c[k] == conversation[k];
      assert IssuedBy(c, j, i);
    }
  }

  /**
   * Every tool message the loop appends holds one result whose id and tool
   * name are those of a tool call in the block-list message appended earlier
   * in the same cycle, with no later block list in between.
   */
  lemma {:induction false} ResolveKeepsLinks(conversation: seq<Message>, replies: seq<Response>, tools: seq<ToolEntry>, call: ToolFn)
    requires WellLinked(conversation)
    ensures WellLinked(Resolve(conversation, replies, tools, call).conversation)
    decreases |replies|
  {
    if replies != [] && replies[0] != [] {
      var response := replies[0];
      if IsFinal(response) {
        LinkedAfterAnswer(conversation, response[0].text);
      } else {
        var w := WalkBlocks(response, call);
        WalkMessages(response, call);
        LinkedAfterCycle(conversation, response, w.appended);
        if w.failure.None? {
          ResolveKeepsLinks(conversation + [AssistantBlocks(response)] + w.appended, replies[1..], tools, call);
        }
      }
    }
  }

  /**
   * A resolution of a query starts from the one user message, so every tool
   * message of the result answers an earlier tool call (where it starts is
   * stated by `ResolveQuery` itself).
   */
  lemma QueryStartsFresh(query: string, replies: seq<Response>, tools: seq<ToolEntry>, call: ToolFn)
    ensures WellLinked(ResolveQuery(query, replies, tools, call).conversation)
  {
    ResolveKeepsLinks([UserMessage(query)], replies, tools, call);
  }

  /** A first response that is one text block: two messages, one model call. */
  lemma FirstAnswerFinal(query: string, replies: seq<Response>, tools: seq<ToolEntry>, call: ToolFn)
    requires replies != [] && IsFinal(replies[0])
    ensures ResolveQuery(query, replies, tools, call) ==
      Run(Ok([UserMessage(query), AssistantText(replies[0][0].text)]),
          [UserMessage(query), AssistantText(replies[0][0].text)],
          [Ask([UserMessage(query)], tools)])
  {
    assert [UserMessage(query)] + [AssistantText(replies[0][0].text)] ==
      [UserMessage(query), AssistantText(replies[0][0].text)];
  }

  /** A response of several text blocks does not end the loop: it is narrated and the model is asked again. */
  lemma AllTextContinues(conversation: seq<Message>, a: string, b: string, replies: seq<Response>, tools: seq<ToolEntry>, call: ToolFn)
    requires replies != [] && replies[0] == [Text(a), Text(b)]
    ensures Resolve(conversation, replies, tools, call) ==
      (var next := conversation + [AssistantBlocks([Text(a), Text(b)]), AssistantText(a), AssistantText(b)];
       var rest := Resolve(next, replies[1..], tools, call);
       Run(rest.result, rest.conversation, [Ask(conversation, tools)] + rest.trace))
  {
    var bs := [Text(a), Text(b)];
    assert bs[..1] == [Text(a)];
    assert [Text(a)][..0] == [];
    assert WalkBlocks([Text(a)], call) == Walk([AssistantText(a)], [], None);
    assert WalkBlocks(bs, call) == Walk([AssistantText(a), AssistantText(b)], [], None);
    assert conversation + [AssistantBlocks(bs)] + [AssistantText(a), AssistantText(b)] ==
      conversation + [AssistantBlocks(bs), AssistantText(a), AssistantText(b)];
    assert [Ask(conversation, tools)] + [] == [Ask(conversation, tools)];
  }

  /** An empty response fails the resolution instead of looping. */
  lemma EmptyResponseFails(conversation: seq<Message>, replies: seq<Response>, tools: seq<ToolEntry>, call: ToolFn)
    requires replies != [] && replies[0] == []
    ensures Resolve(conversation, replies, tools, call) == Run(Err(EmptyResponse), conversation, [Ask(conversation, tools)])
  {
  }

  /**
   * A response that is one successful tool call: exactly that tool call, then
   * the block list and one tool message answering it by id, before the model
   * is asked again.
   */
  lemma SingleToolCallStep(conversation: seq<Message>, id: string, name: string, input: Json,
                           replies: seq<Response>, tools: seq<ToolEntry>, call: ToolFn)
    requires replies != [] && replies[0] == [ToolCall(id, name, input)]
    requires call(name, input).Ok?
    ensures Resolve(conversation, replies, tools, call) ==
      After([Ask(conversation, tools), ToolInvoke(name, input)],
            Resolve(conversation + [AssistantBlocks(replies[0]), ToolMessage(id, name, call(name, input).value)],
                    replies[1..], tools, call))
  {
    var reply := ToolMessage(id, name, call(name, input).value);
    assert replies[0][..0] == [];
    assert WalkBlocks(replies[0], call) == Walk([reply], [ToolInvoke(name, input)], None);
    assert conversation + [AssistantBlocks(replies[0])] + [reply] == conversation + [AssistantBlocks(replies[0]), reply];
    assert Cycle(conversation, replies, tools, call) ==
      Continue(conversation + [AssistantBlocks(replies[0]), reply], [Ask(conversation, tools), ToolInvoke(name, input)]);
  }
}
