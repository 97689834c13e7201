/** Worked resolutions and launches with concrete inputs. */
module Scenarios {
  import opened Wrappers
  import opened Conversation
  import opened Launcher
  import opened Resolver

  /** "what is 2+2" answered by one text block "4": two messages and one model call. */
  lemma ArithmeticScenario(tools: seq<ToolEntry>, call: ToolFn)
    ensures ResolveQuery("what is 2+2", [[Text("4")]], tools, call) ==
      Run(Ok([UserMessage("what is 2+2"), AssistantText("4")]),
          [UserMessage("what is 2+2"), AssistantText("4")],
          [Ask([UserMessage("what is 2+2")], tools)])
  {
    FirstAnswerFinal("what is 2+2", [[Text("4")]], tools, call);
  }

  /**
   * "list my files": the model calls list_files, the tool answers ["a.txt"],
   * the model then answers in text. Four messages (user, the block list, the
   * tool result, the answer), two model calls and one tool call between them.
   */
  lemma ListFilesScenario(tools: seq<ToolEntry>, call: ToolFn)
    requires call("list_files", Object([])) == Ok(Array([Str("a.txt")]))
    ensures var invoke := ToolCall("call-1", "list_files", Object([]));
      var asked := [UserMessage("list my files")];
      var grown := asked + [AssistantBlocks([invoke]), ToolMessage("call-1", "list_files", Array([Str("a.txt")]))];
      var final := grown + [AssistantText("You have 1 file: a.txt")];
      ResolveQuery("list my files", [[invoke], [Text("You have 1 file: a.txt")]], tools, call) ==
        Run(Ok(final), final,
            [Ask(asked, tools), ToolInvoke("list_files", Object([])), Ask(grown, tools)])
  {
    var invoke := ToolCall("call-1", "list_files", Object([]));
    var replies := [[invoke], [Text("You have 1 file: a.txt")]];
    SingleToolCallStep([UserMessage("list my files")], "call-1", "list_files", Object([]), replies, tools, call);
    var grown := [UserMessage("list my files")] + [AssistantBlocks([invoke]), ToolMessage("call-1", "list_files", Array([Str("a.txt")]))];
    assert replies[1..] == [[Text("You have 1 file: a.txt")]];
    FirstAnswerFinal("list my files", replies[1..], tools, call);
    assert Resolve(grown, replies[1..], tools, call) ==
      Run(Ok(grown + [AssistantText("You have 1 file: a.txt")]), grown + [AssistantText("You have 1 file: a.txt")], [Ask(grown, tools)]);
  }

  /** A script with an unrecognised suffix is refused; the two recognised ones pick their launcher. */
  lemma LaunchScenarios()
    ensures LaunchFor("server.rb") == Err(InvalidServerType)
    ensures LaunchFor("weather.py") == Ok(Launch("python", ["weather.py"]))
    ensures LaunchFor("weather.js") == Ok(Launch("node", ["weather.js"]))
  {
  }
}
