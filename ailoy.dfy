/** The value types of the `ailoy-web` library that the chat application exchanges with its
    agent worker. Only their shape is modelled; the library's operations on them
    (delta accumulation, finalisation, image decoding) are foreign and appear elsewhere as
    function-valued parameters. */
module Ailoy {
  import opened Wrappers

  datatype Role = System | User | Assistant | Tool

  /** One part of a message's contents. */
  datatype Part = TextPart(text: string) | ImagePart(data: seq<bv8>) | ValuePart(json: string)

  /** A finished message. */
  datatype Message = Message(role: Role, contents: seq<Part>)

  /** A partial message emitted while a run streams. Its merge rule belongs to `ailoy-web`. */
  datatype MessageDelta = MessageDelta(role: Option<Role>, contents: seq<Part>)

  /** What the worker forwards for one streamed step: the delta and, on the last one, why the
      stream stopped. */
  datatype MessageDeltaOutput = MessageDeltaOutput(delta: MessageDelta, finishReason: Option<string>)

  /** A tool an MCP server exposes. */
  datatype ToolDesc = ToolDesc(name: string, description: string)

  /** Byte counters reported while a local model is fetched. */
  datatype CacheProgress = CacheProgress(current: nat, total: nat)

  /** Inference options of a run. `thinkEffort` is the reasoning switch; the other options are
      kept as an uninterpreted name/value map. */
  datatype InferenceConfig = InferenceConfig(thinkEffort: Option<string>, otherOptions: map<string, string>)

  /** The run configuration (`ai.AgentConfig`): optional inference options and other fields. */
  datatype AgentConfig = AgentConfig(inference: Option<InferenceConfig>, otherFields: map<string, string>)

  /** The empty configuration `{}`, the stored default. */
  const EmptyAgentConfig := AgentConfig(None, map[])
}
