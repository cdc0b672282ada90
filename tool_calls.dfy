/** The tool-call entries of a chat-completion reply, as both agent loops
    read them (src/lib/agent.ts and backend/agents/cosmetist.py). Every
    part may be missing; each loop has its own rule for the missing parts. */
module ToolCalls {
  import opened Base

  /** `call.function` (here `func`): the tool's name and its JSON-encoded arguments. */
  datatype FunctionPart = FunctionPart(name: Option<string>, arguments: Option<string>)

  datatype ToolCall = ToolCall(id: Option<string>, func: Option<FunctionPart>)

  /** The text that reports a tool the loop does not know. */
  function NotAvailable(name: string): string {
    "Tool \"" + name + "\" is not available."
  }

  const MaxTurnsError := "Agent exceeded max turns without producing a response."
}
