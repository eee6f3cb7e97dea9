/** provider/types.go: the values that providers, the tool loop and callers exchange. */
module Provider {
  import opened Wrappers

  /** A JSON document; also the stand-in for Go's untyped values. */
  datatype Json =
    | Null
    | Bool(b: bool)
    | Num(n: real)
    | Str(s: string)
    | Arr(items: seq<Json>)
    | Obj(fields: map<string, Json>)

  /** Metadata and provider options: a nil map and an empty one are the same here. */
  type Meta = map<string, Json>

  function Lookup(m: Meta, k: string): Json {
    if k in m then m[k] else Null
  }

  datatype Role = System | User | Assistant | Tool

  datatype PartType = PartText | PartReasoning | PartToolCall | PartToolResult | PartOther

  datatype Part = Part(typ: PartType, text: string, toolCallId: string, toolName: string,
                       toolInput: string, toolOutput: string, options: Meta)

  function TextPart(text: string): Part {
    Part(PartText, text, "", "", "", "", map[])
  }

  function ReasoningPart(text: string, options: Meta): Part {
    Part(PartReasoning, text, "", "", "", "", options)
  }

  function ToolCallPart(id: string, name: string, input: string, options: Meta): Part {
    Part(PartToolCall, "", id, name, input, "", options)
  }

  function ToolResultPart(id: string, name: string, output: string): Part {
    Part(PartToolResult, "", id, name, "", output, map[])
  }

  datatype Message = Message(role: Role, content: seq<Part>)

  datatype ToolCall = ToolCall(id: string, name: string, input: string, metadata: Meta)

  datatype ToolResult = ToolResult(toolCallId: string, toolName: string, output: string, isError: bool)

  datatype Usage = Usage(input: int, output: int, total: int, reasoning: int, cacheRead: int, cacheWrite: int)

  const NO_USAGE: Usage := Usage(0, 0, 0, 0, 0, 0)

  function AddUsage(a: Usage, b: Usage): Usage {
    Usage(a.input + b.input, a.output + b.output, a.total + b.total,
          a.reasoning + b.reasoning, a.cacheRead + b.cacheRead, a.cacheWrite + b.cacheWrite)
  }

  type Source = Json

  datatype Response = Response(id: string, model: string, meta: Meta)

  /** generate.go, StepResult: one generation step of a tool loop. */
  datatype StepResult = StepResult(
    content: Option<seq<Part>>, number: nat, text: string, reasoning: string,
    toolCalls: seq<ToolCall>, toolResults: seq<ToolResult>, finishReason: string, usage: Usage,
    sources: seq<Source>, response: Response, providerMeta: Meta)

  const FINISH_TOOL_CALLS: string := "tool-calls"

  /** The presence of tool calls decides, whatever reason the provider gave. */
  function NormalizedReason(reason: string, toolCalls: seq<ToolCall>): string {
    if toolCalls != [] then FINISH_TOOL_CALLS else reason
  }

  function TotalUsage(steps: seq<StepResult>): Usage {
    if steps == [] then NO_USAGE else AddUsage(TotalUsage(steps[..|steps| - 1]), steps[|steps| - 1].usage)
  }
}
