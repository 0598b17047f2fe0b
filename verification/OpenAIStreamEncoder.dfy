/** Writing canonical events as an OpenAI stream. */
module OpenAIStreamEncoder {
  import opened Int64
  import opened Canonical
  import opened OpenAIUsage
  import opened OpenAIWire

  /** The encoder's state; toolIndex maps the block index of a tool call to its index on the wire. */
  datatype Enc = Enc(usage: Usage, usageSent: bool, toolIndex: map<int, nat>, nextTool: nat, toolStarted: set<int>)

  const NEW_ENCODER := Enc(NO_USAGE, false, map[], 0, {})

  function MergeUsage(u: Usage, from: Option<Usage>): Usage {
    if from.None? then u
    else
      var n := from.value;
      var u1 := if n.inputKnown then u.(inputTokens := n.inputTokens, inputKnown := true) else u;
      var u2 := if n.outputKnown then u1.(outputTokens := n.outputTokens, outputKnown := true) else u1;
      var u3 := if n.totalKnown then u2.(reportedTotal := n.reportedTotal, totalKnown := true) else u2;
      u3.(cacheCreation := if n.cacheCreation > u.cacheCreation then n.cacheCreation else u.cacheCreation,
          cacheRead := if n.cacheRead > u.cacheRead then n.cacheRead else u.cacheRead)
  }

  function ChoiceChunk(delta: WireDelta, finish: Option<string>): Record {
    ChunkRecord(Chunk([Choice(0, Some(delta), finish)], None))
  }

  function UsageChunk(u: Usage): Record { ChunkRecord(Chunk([], UsageToWire(u))) }

  function AssignToolIndex(e: Enc, block: int): (Enc, nat) {
    if block in e.toolIndex then (e, e.toolIndex[block])
    else (e.(toolIndex := e.toolIndex[block := e.nextTool], nextTool := e.nextTool + 1), e.nextTool)
  }

  function ToolChunk(part: ToolPart): Record { ChoiceChunk(WireDelta(NoContent, [part]), None) }

  function EncodeDelta(e: Enc, ev: Event): (Enc, seq<Record>) {
    if ev.delta.None? then (e, [])
    else if ev.delta.value.text != "" then (e, [ChoiceChunk(WireDelta(Plain(ev.delta.value.text), []), None)])
    else if ev.delta.value.partialJson != "" then
      var (e1, index) := AssignToolIndex(e, ev.blockIndex);
      (e1, [ToolChunk(ToolPart(index, "", "", ev.delta.value.partialJson))])
    else (e, [])
  }

  predicate SendsUsage(e: Enc, ev: Event) { ev.usageFinal && ev.usage.Some? && !e.usageSent }

  /** The records one event is written as. */
  function EncodeStep(e: Enc, ev: Event): (Enc, seq<Record>) {
    match ev.kind
    case MessageStart => (e.(usage := MergeUsage(e.usage, ev.usage)), [ChoiceChunk(WireDelta(NoContent, []), None)])
    case BlockStart =>
      if ev.blockType == ToolUse && ev.delta.Some? then
        var (e1, index) := AssignToolIndex(e, ev.blockIndex);
        (e1.(toolStarted := e1.toolStarted + {ev.blockIndex}),
         [ToolChunk(ToolPart(index, ev.delta.value.toolUseId, ev.delta.value.toolName, ""))])
      else (e, [])
    case BlockDelta => EncodeDelta(e, ev)
    case BlockStop => (e, [])
    case MessageDelta =>
      var e1 := e.(usage := MergeUsage(e.usage, ev.usage));
      var finish := if ev.stopReason == NoReason then [] else [ChoiceChunk(WireDelta(NoContent, []), Some(StopToFinish(ev.stopReason)))];
      if SendsUsage(e, ev) then (e1.(usageSent := true), finish + [UsageChunk(e1.usage)]) else (e1, finish)
    case MessageStop => (e, [DoneMark])
    case Ping => (e, [])
    case ErrorEvent => (e, [ErrorRecord])
  }

  function EncodeAll(e: Enc, events: seq<Event>): (Enc, seq<Record>)
    decreases |events|
  {
    if events == [] then (e, [])
    else
      var (e1, first) := EncodeStep(e, events[0]);
      var (e2, rest) := EncodeAll(e1, events[1..]);
      (e2, first + rest)
  }

  class StreamEncoder {
    var usage: Usage
    var usageSent: bool
    var toolIndex: map<int, nat>
    var nextTool: nat
    var toolStarted: set<int>

    constructor ()
      ensures View() == NEW_ENCODER
    {
      usage, usageSent, toolIndex, nextTool, toolStarted := NO_USAGE, false, map[], 0, {};
    }

    function View(): Enc
      reads this
    {
      Enc(usage, usageSent, toolIndex, nextTool, toolStarted)
    }

    method Assign(block: int) returns (index: nat)
      modifies this
      ensures (View(), index) == AssignToolIndex(old(View()), block)
    {
      if block in toolIndex {
        return toolIndex[block];
      }
      index := nextTool;
      nextTool := nextTool + 1;
      toolIndex := toolIndex[block := index];
    }

    method Merge(from: Option<Usage>)
      modifies this`usage
      ensures usage == MergeUsage(old(usage), from)
    {
      if from.Some? {
        var n := from.value;
        if n.inputKnown { usage := usage.(inputTokens := n.inputTokens, inputKnown := true); }
        if n.outputKnown { usage := usage.(outputTokens := n.outputTokens, outputKnown := true); }
        if n.totalKnown { usage := usage.(reportedTotal := n.reportedTotal, totalKnown := true); }
        if n.cacheCreation > usage.cacheCreation { usage := usage.(cacheCreation := n.cacheCreation); }
        if n.cacheRead > usage.cacheRead { usage := usage.(cacheRead := n.cacheRead); }
      }
    }

    method Encode(ev: Event) returns (records: seq<Record>)
      modifies this
      ensures (View(), records) == EncodeStep(old(View()), ev)
    {
      records := [];
      match ev.kind {
        case MessageStart =>
          Merge(ev.usage);
          records := [ChoiceChunk(WireDelta(NoContent, []), None)];
        case BlockStart =>
          if ev.blockType == ToolUse && ev.delta.Some? {
            var index := Assign(ev.blockIndex);
            toolStarted := toolStarted + {ev.blockIndex};
            records := [ToolChunk(ToolPart(index, ev.delta.value.toolUseId, ev.delta.value.toolName, ""))];
          }
        case BlockDelta =>
          if ev.delta.Some? {
            var d := ev.delta.value;
            if d.text != "" {
              records := [ChoiceChunk(WireDelta(Plain(d.text), []), None)];
            } else if d.partialJson != "" {
              var index := Assign(ev.blockIndex);
              records := [ToolChunk(ToolPart(index, "", "", d.partialJson))];
            }
          }
        case BlockStop =>
        case MessageDelta =>
          Merge(ev.usage);
          if ev.stopReason != NoReason {
            records := [ChoiceChunk(WireDelta(NoContent, []), Some(StopToFinish(ev.stopReason)))];
          }
          if ev.usageFinal && ev.usage.Some? && !usageSent {
            usageSent := true;
            records := records + [UsageChunk(usage)];
          }
        case MessageStop =>
          records := [DoneMark];
        case Ping =>
        case ErrorEvent =>
          records := [ErrorRecord];
      }
    }
  }

  // ---- tool indices ----

  ghost predicate GivenTo(e: Enc, i: int) { exists b :: b in e.toolIndex && e.toolIndex[b] == i }

  /** The indices given out so far are 0, 1, ... n-1, one to a block. */
  ghost predicate Numbered(e: Enc) {
    && (forall b | b in e.toolIndex :: e.toolIndex[b] < e.nextTool)
    && (forall a, b | a in e.toolIndex && b in e.toolIndex && e.toolIndex[a] == e.toolIndex[b] :: a == b)
    && (forall i | 0 <= i < e.nextTool :: GivenTo(e, i))
  }

  ghost predicate Extends(e: Enc, e1: Enc) {
    forall b | b in e.toolIndex :: b in e1.toolIndex && e1.toolIndex[b] == e.toolIndex[b]
  }

  lemma AssignKeepsNumbered(e: Enc, block: int)
    requires Numbered(e)
    ensures var e1 := AssignToolIndex(e, block).0; Numbered(e1) && Extends(e, e1)
  {
    var e1 := AssignToolIndex(e, block).0;
    if block !in e.toolIndex {
      forall i | 0 <= i < e1.nextTool ensures GivenTo(e1, i) {
        if i == e.nextTool {
          assert e1.toolIndex[block] == i;
        } else {
          assert GivenTo(e, i);
          var b :| b in e.toolIndex && e.toolIndex[b] == i;
          assert e1.toolIndex[b] == i;
        }
      }
    }
  }

  lemma StepKeepsNumbered(e: Enc, ev: Event)
    requires Numbered(e)
    ensures Numbered(EncodeStep(e, ev).0) && Extends(e, EncodeStep(e, ev).0)
  {
    AssignKeepsNumbered(e, ev.blockIndex);
    var e0, e1 := AssignToolIndex(e, ev.blockIndex).0, EncodeStep(e, ev).0;
    assert (e1.toolIndex, e1.nextTool) in {(e.toolIndex, e.nextTool), (e0.toolIndex, e0.nextTool)};
    SameNumbers(e, e1);
    SameNumbers(e0, e1);
  }

  lemma SameNumbers(e: Enc, e1: Enc)
    ensures e1.toolIndex == e.toolIndex && e1.nextTool == e.nextTool ==> Numbered(e1) == Numbered(e)
  {
    if e1.toolIndex == e.toolIndex && e1.nextTool == e.nextTool {
      assert forall i :: GivenTo(e1, i) == GivenTo(e, i);
    }
  }

  /** Over every sequence of events, well formed or not, tool calls are numbered from 0 without gaps or repeats, and a
      number once given is never changed. */
  lemma {:induction false} ToolIndicesAreABijection(e: Enc, events: seq<Event>)
    requires Numbered(e)
    ensures Numbered(EncodeAll(e, events).0) && Extends(e, EncodeAll(e, events).0)
    decreases |events|
  {
    if events != [] {
      StepKeepsNumbered(e, events[0]);
      ToolIndicesAreABijection(EncodeStep(e, events[0]).0, events[1..]);
    }
  }
}
