/** Which command launches a tool server script (client/mcp_client.py, connect). */
module Launcher {
  import opened Wrappers
  import opened Conversation

  /** The command line handed to the stdio transport. */
  datatype Launch = Launch(command: string, args: seq<string>)

  predicate EndsWith(s: string, suffix: string)
  {
    |suffix| <= |s| && s[|s| - |suffix|..] == suffix
  }

  /**
   * The suffix rule: ".py" runs under python, ".js" under node, anything else
   * is refused. No path ends in both, as the last two ensures clauses together
   * show, so the python-first choice never decides between them.
   */
  function LaunchFor(path: string): (r: Result<Launch, Error>)
    ensures r.Err? <==> !EndsWith(path, ".py") && !EndsWith(path, ".js")
    ensures r.Err? ==> r.error == InvalidServerType
    ensures EndsWith(path, ".py") ==> r == Ok(Launch("python", [path]))
    ensures EndsWith(path, ".js") ==> r == Ok(Launch("node", [path]))
  {
    var isPython := EndsWith(path, ".py");
    var isJs := EndsWith(path, ".js");
    if !(isPython || isJs) then
      Err(InvalidServerType)
    else
      Ok(Launch(if isPython then "python" else "node", [path]))
  }
}
