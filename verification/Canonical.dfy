/** The provider-neutral usage report and stream events. */
module Canonical {
  import opened Int64

  /** The `known` flags tell an explicit zero from a missing field. */
  datatype Usage = Usage(inputTokens: int64, outputTokens: int64, inputKnown: bool, outputKnown: bool,
                         reportedTotal: int64, totalKnown: bool,
                         cacheCreation: int64, cacheRead: int64)

  const NO_USAGE := Usage(0, 0, false, false, 0, false, 0, 0)

  datatype EventKind = MessageStart | BlockStart | BlockDelta | BlockStop | MessageDelta | MessageStop | Ping | ErrorEvent

  datatype BlockType = Text | Image | Thinking | ToolUse

  datatype Delta = Delta(text: string, thinking: string, signature: string,
                         toolUseId: string, toolName: string, partialJson: string)

  const NO_DELTA := Delta("", "", "", "", "", "")

  datatype StopReason = NoReason | EndTurn | MaxTokens | ToolCalls | StopSequence | StopError

  datatype Event = Event(kind: EventKind, blockIndex: int, blockType: BlockType, delta: Option<Delta>,
                         stopReason: StopReason, usage: Option<Usage>, usageFinal: bool)

  function Bare(kind: EventKind): Event { Event(kind, 0, Text, None, NoReason, None, false) }
}
