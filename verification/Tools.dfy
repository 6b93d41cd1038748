// Tool calls and results at the engine's effect boundary (tool.rs).
module Tools {
  import opened Wrappers
  import opened Json
  import opened Messages

  datatype ToolCall = ToolCall(id: string, name: string, args: Json)

  datatype ToolResult = ToolResult(
    callId: string,
    toolName: string,
    output: string,
    isError: bool,
    stopTurn: bool,
    updates: seq<string>)

  // `tool_result_message` (engine.rs)
  function ResultMessage(r: ToolResult): Message {
    Message(Role.Tool, Str(r.output), Some(r.toolName), Some(r.callId), None)
  }

  function KeyOf(call: ToolCall): string {
    MakeKey(call.name, call.args)
  }

  function ErrorResult(call: ToolCall, output: string): ToolResult {
    ToolResult(call.id, call.name, output, true, false, [])
  }
}
