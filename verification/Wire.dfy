/** The parts of OpenAI's chat.completion.chunk and chat.completion that the gateway reads or writes. */
module Wire {
  import opened Prelude

  /** A tool call inside a delta: a whole call, or one fragment of the call numbered `index`. */
  datatype Fragment = Fragment(index: int, id: string, name: string, args: string)

  datatype Delta = Delta(role: string, content: string, toolCalls: seq<Fragment>)

  datatype Choice = Choice(delta: Delta, finish: Option<string>)

  datatype Usage = Usage(prompt: int, completion: int)

  datatype Chunk = Chunk(model: string, choices: seq<Choice>, usage: Option<Usage>)

  const FINISH_STOP := "stop"
  const FINISH_LENGTH := "length"
  const FINISH_TOOL_CALLS := "tool_calls"

  /** A tool call of a finished completion; `index` is the stream index it was accumulated under. */
  datatype ToolCall = ToolCall(index: int, id: string, name: string, args: string)

  /** A finished completion with one choice. */
  datatype Completion = Completion(content: string, calls: seq<ToolCall>, finish: Option<string>, usage: Usage)

  function Last<T>(s: seq<T>): T
    requires s != []
  {
    s[|s| - 1]
  }

  function Front<T>(s: seq<T>): seq<T>
    requires s != []
  {
    s[..|s| - 1]
  }

  function Joined(parts: seq<string>): string {
    if parts == [] then "" else Joined(Front(parts)) + Last(parts)
  }
}
