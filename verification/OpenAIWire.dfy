/** The records of an OpenAI chat completion stream, after JSON parsing, and what they say. */
module OpenAIWire {
  import opened Int64
  import opened Canonical
  import opened OpenAIUsage

  /** A fragment of a tool call: the first one of an index carries the id and the name. */
  datatype ToolPart = ToolPart(index: int, id: string, name: string, arguments: string)

  /** The content field: a string, an array of typed parts, or something else, which counts as no text. */
  datatype WireContent = NoContent | Plain(text: string) | Parts(parts: seq<(string, string)>) | OtherContent

  datatype WireDelta = WireDelta(content: WireContent, toolCalls: seq<ToolPart>)

  datatype Choice = Choice(index: int, delta: Option<WireDelta>, finish: Option<string>)

  datatype Chunk = Chunk(choices: seq<Choice>, usage: Option<WireUsage>)

  /** A record as the decoder classifies it. */
  datatype Record =
    | Heartbeat
    | Blank
    | DoneMark
    | ErrorRecord
    | Malformed
    | ChunkRecord(chunk: Chunk)

  function PartsText(parts: seq<(string, string)>): string {
    if parts == [] then "" else (if parts[0].0 == "text" then parts[0].1 else "") + PartsText(parts[1..])
  }

  /** Array content is the texts of its text parts, one after the other; other parts count as nothing. */
  lemma {:induction false} PartsTextJoins(a: seq<(string, string)>, b: seq<(string, string)>)
    ensures PartsText(a + b) == PartsText(a) + PartsText(b)
    ensures forall kind: string, text: string :: PartsText([(kind, text)]) == if kind == "text" then text else ""
    decreases |a|
  {
    forall kind: string, text: string ensures PartsText([(kind, text)]) == if kind == "text" then text else "" {
      assert [(kind, text)][1..] == [] && text + "" == text;
    }
    if a == [] {
      assert a + b == b && "" + PartsText(b) == PartsText(b);
    } else {
      assert (a + b)[0] == a[0] && (a + b)[1..] == a[1..] + b;
      PartsTextJoins(a[1..], b);
    }
  }

  function ContentText(content: WireContent): string {
    match content
    case NoContent => ""
    case Plain(text) => text
    case Parts(parts) => PartsText(parts)
    case OtherContent => ""
  }

  function DeltaText(delta: Option<WireDelta>): string { if delta.Some? then ContentText(delta.value.content) else "" }

  function DeltaTools(delta: Option<WireDelta>): seq<ToolPart> { if delta.Some? then delta.value.toolCalls else [] }

  function FinishToCanonical(r: string): StopReason {
    if r == "stop" then EndTurn
    else if r == "length" then MaxTokens
    else if r == "tool_calls" then ToolCalls
    else if r == "content_filter" then StopError
    else EndTurn
  }

  function StopToFinish(r: StopReason): string {
    match r
    case MaxTokens => "length"
    case ToolCalls => "tool_calls"
    case StopError => "content_filter"
    case _ => "stop"
  }

  /** Of the reasons a stream can end for, only a stop sequence is not told apart from a normal end; each has the name the
      format gives it, and an unknown name is a normal end. */
  lemma StopReasonsSurvive(r: StopReason)
    requires r != NoReason
    ensures FinishToCanonical(StopToFinish(r)) == r <==> r != StopSequence
    ensures StopToFinish(r) == match r
      case MaxTokens => "length" case ToolCalls => "tool_calls" case StopError => "content_filter" case _ => "stop"
    ensures forall f: string | f !in {"stop", "length", "tool_calls", "content_filter"} :: FinishToCanonical(f) == EndTurn
  {
    assert "length" != "stop" && "tool_calls" != "stop" && "content_filter" != "stop";
    assert "tool_calls" != "length" && "content_filter" != "length" && "content_filter" != "tool_calls" by {
      assert |"tool_calls"| != |"length"| && |"content_filter"| != |"length"| && |"content_filter"| != |"tool_calls"|;
    }
  }

  // ---- what a stream says: its text, and its tool calls in order ----

  datatype Call = Call(id: string, name: string, arguments: string)

  function Extend(calls: seq<Call>, i: nat, arguments: string): seq<Call>
    requires i < |calls|
  {
    calls[i := calls[i].(arguments := calls[i].arguments + arguments)]
  }

  /** What the records read so far carry, and where the calls that later fragments extend are. */
  datatype Carried = Carried(text: string, calls: seq<Call>, current: map<int, nat>)

  predicate CarriedOk(k: Carried) { forall i | i in k.current :: k.current[i] < |k.calls| }

  const NOTHING := Carried("", [], map[])

  function CarryTool(k: Carried, part: ToolPart): (r: Carried)
    requires CarriedOk(k)
    ensures CarriedOk(r)
  {
    if part.index in k.current then k.(calls := Extend(k.calls, k.current[part.index], part.arguments))
    else k.(calls := k.calls + [Call(part.id, part.name, part.arguments)], current := k.current[part.index := |k.calls|])
  }

  function CarryTools(k: Carried, parts: seq<ToolPart>): (r: Carried)
    requires CarriedOk(k)
    ensures CarriedOk(r)
    decreases |parts|
  {
    if parts == [] then k else CarryTools(CarryTool(k, parts[0]), parts[1..])
  }

  /** One record. A finish reason, like the end mark, ends every call. */
  function Carry(k: Carried, record: Record): (r: Carried)
    requires CarriedOk(k)
    ensures CarriedOk(r)
  {
    match record
    case DoneMark => k.(current := map[])
    case ChunkRecord(chunk) =>
      if |chunk.choices| != 1 then k
      else
        var choice := chunk.choices[0];
        var k' := CarryTools(k.(text := k.text + DeltaText(choice.delta)), DeltaTools(choice.delta));
        if choice.finish.Some? then k'.(current := map[]) else k'
    case _ => k
  }

  function CarryAll(k: Carried, records: seq<Record>): (r: Carried)
    requires CarriedOk(k)
    ensures CarriedOk(r)
    decreases |records|
  {
    if records == [] then k else CarryAll(Carry(k, records[0]), records[1..])
  }

  lemma {:induction false} CarryConcat(k: Carried, a: seq<Record>, b: seq<Record>)
    requires CarriedOk(k)
    ensures CarryAll(k, a + b) == CarryAll(CarryAll(k, a), b)
    decreases |a|
  {
    if a == [] {
      assert a + b == b;
    } else {
      assert (a + b)[0] == a[0] && (a + b)[1..] == a[1..] + b;
      CarryConcat(Carry(k, a[0]), a[1..], b);
    }
  }

  // ---- what canonical events say ----

  /** What the events so far say, and which call each block index stands for. */
  datatype Content = Content(text: string, calls: seq<Call>, at: map<int, nat>)

  predicate ContentOk(c: Content) { forall b | b in c.at :: c.at[b] < |c.calls| }

  const SILENCE := Content("", [], map[])

  function Absorb(c: Content, ev: Event): (r: Content)
    requires ContentOk(c)
    ensures ContentOk(r)
  {
    if ev.delta.None? then c
    else if ev.kind == BlockStart && ev.blockType == ToolUse then
      c.(calls := c.calls + [Call(ev.delta.value.toolUseId, ev.delta.value.toolName, "")], at := c.at[ev.blockIndex := |c.calls|])
    else if ev.kind == BlockDelta then
      c.(text := c.text + ev.delta.value.text,
         calls := if ev.blockIndex in c.at then Extend(c.calls, c.at[ev.blockIndex], ev.delta.value.partialJson) else c.calls)
    else c
  }

  function AbsorbAll(c: Content, events: seq<Event>): (r: Content)
    requires ContentOk(c)
    ensures ContentOk(r)
    decreases |events|
  {
    if events == [] then c else AbsorbAll(Absorb(c, events[0]), events[1..])
  }

  lemma {:induction false} AbsorbConcat(c: Content, a: seq<Event>, b: seq<Event>)
    requires ContentOk(c)
    ensures AbsorbAll(c, a + b) == AbsorbAll(AbsorbAll(c, a), b)
    decreases |a|
  {
    if a == [] {
      assert a + b == b;
    } else {
      assert (a + b)[0] == a[0] && (a + b)[1..] == a[1..] + b;
      AbsorbConcat(Absorb(c, a[0]), a[1..], b);
    }
  }
}
