/** The tool catalog the client keeps for the model (client/mcp_client.py, connect). */
module Catalog {
  import opened Conversation

  function Entry(tool: McpTool): ToolEntry
  {
    ToolEntry(tool.name, tool.description, tool.parameters)
  }

  /** The catalog: one entry per listed tool, in listing order, holding that tool's three fields. */
  function Project(tools: seq<McpTool>): (c: seq<ToolEntry>)
    ensures |c| == |tools|
    ensures forall i :: 0 <= i < |tools| ==>
      c[i].name == tools[i].name && c[i].description == tools[i].description &&
      c[i].parameters == tools[i].parameters
  {
    if tools == [] then [] else [Entry(tools[0])] + Project(tools[1..])
  }

  function Names(c: seq<ToolEntry>): seq<string>
  {
    if c == [] then [] else [c[0].name] + Names(c[1..])
  }

  function ListedNames(tools: seq<McpTool>): seq<string>
  {
    if tools == [] then [] else [tools[0].name] + ListedNames(tools[1..])
  }

  /** The catalog advertises exactly the listed names, in order. */
  lemma {:induction false} ProjectKeepsNames(tools: seq<McpTool>)
    ensures Names(Project(tools)) == ListedNames(tools)
  {
    if tools != [] {
      ProjectKeepsNames(tools[1..]);
    }
  }

  /** Two listings give the same catalog exactly when they are the same listing. */
  lemma ProjectInjective(a: seq<McpTool>, b: seq<McpTool>)
    ensures Project(a) == Project(b) <==> a == b
  {
  }
}
