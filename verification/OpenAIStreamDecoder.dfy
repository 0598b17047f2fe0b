/** Reading an OpenAI stream: every accepted stream becomes a well-bracketed sequence of block events that says what the
    chunks carried, in whatever order a map of open tool calls is walked. */
module OpenAIStreamDecoder {
  import opened Int64
  import opened Canonical
  import opened OpenAIUsage
  import opened OpenAIWire

  /** The decoder's state; tools maps the tool call index of the wire to the block index. */
  datatype Dec = Dec(started: bool, next: nat, textOpen: bool, textIdx: nat, tools: map<int, nat>)

  const NEW_DECODER := Dec(false, 0, false, 0, map[])

  datatype DecodeError = BadRecord | UnexpectedChoices

  function BlockEvent(kind: EventKind, index: int, t: BlockType, delta: Option<Delta>): Event {
    Event(kind, index, t, delta, NoReason, None, false)
  }

  function TextDelta(index: int, text: string): Event { BlockEvent(BlockDelta, index, Text, Some(NO_DELTA.(text := text))) }

  function ArgsDelta(index: int, args: string): Event { BlockEvent(BlockDelta, index, Text, Some(NO_DELTA.(partialJson := args))) }

  function ToolStart(index: int, id: string, name: string): Event {
    BlockEvent(BlockStart, index, ToolUse, Some(NO_DELTA.(toolUseId := id, toolName := name)))
  }

  function Stop(index: int): Event { BlockEvent(BlockStop, index, Text, None) }

  function TextStep(d: Dec, text: string): (Dec, seq<Event>) {
    if text == "" then (d, [])
    else if d.textOpen then (d, [TextDelta(d.textIdx, text)])
    else (d.(textOpen := true, textIdx := d.next, next := d.next + 1),
          [BlockEvent(BlockStart, d.next, Text, None)] + [TextDelta(d.next, text)])
  }

  function CloseText(d: Dec): (Dec, seq<Event>) {
    if d.textOpen then (d.(textOpen := false), [Stop(d.textIdx)]) else (d, [])
  }

  function ToolStep(d: Dec, tc: ToolPart): (Dec, seq<Event>) {
    if tc.index in d.tools then (d, ArgsEvents(d.tools[tc.index], tc.arguments))
    else
      var (closed, stops) := CloseText(d);
      (closed.(tools := d.tools[tc.index := d.next], next := d.next + 1),
       stops + [ToolStart(d.next, tc.id, tc.name)] + ArgsEvents(d.next, tc.arguments))
  }

  function ArgsEvents(index: int, args: string): seq<Event> { if args == "" then [] else [ArgsDelta(index, args)] }

  function ToolSteps(d: Dec, tcs: seq<ToolPart>): (Dec, seq<Event>)
    decreases |tcs|
  {
    if tcs == [] then (d, [])
    else
      var (d1, first) := ToolStep(d, tcs[0]);
      var (d2, rest) := ToolSteps(d1, tcs[1..]);
      (d2, first + rest)
  }

  function DeltaStep(d: Dec, delta: Option<WireDelta>): (Dec, seq<Event>) {
    var (d1, text) := TextStep(d, DeltaText(delta));
    var (d2, tools) := ToolSteps(d1, DeltaTools(delta));
    (d2, text + tools)
  }

  /** An order in which the open tool calls can be walked. */
  ghost predicate IsOrder(order: seq<int>, tools: map<int, nat>) {
    && (forall i, j | 0 <= i < j < |order| :: order[i] != order[j])
    && (forall k :: k in order <==> k in tools)
  }

  function Stops(order: seq<int>, tools: map<int, nat>): seq<Event> {
    seq(|order|, i requires 0 <= i < |order| => Stop(if order[i] in tools then tools[order[i]] else 0))
  }

  function CloseAll(d: Dec, order: seq<int>): (Dec, seq<Event>) {
    var (closed, stops) := CloseText(d);
    (closed.(tools := map[]), stops + Stops(order, d.tools))
  }

  function Start(d: Dec): (Dec, seq<Event>) {
    if d.started then (d, []) else (d.(started := true), [Bare(MessageStart)])
  }

  function FinishEvent(finish: string, usage: Option<Usage>): Event {
    Event(MessageDelta, 0, Text, None, FinishToCanonical(finish), usage, usage.Some?)
  }

  function ChoiceStep(d: Dec, choice: Choice, usage: Option<Usage>, order: seq<int>): (Dec, seq<Event>) {
    var (d1, events) := DeltaStep(d, choice.delta);
    if choice.finish.None? then (d1, events)
    else
      var (d2, stops) := CloseAll(d1, order);
      (d2, events + stops + [FinishEvent(choice.finish.value, usage)])
  }

  function ChunkStep(d: Dec, chunk: Chunk, order: seq<int>): (Dec, Result<seq<Event>, DecodeError>) {
    var (d1, start) := Start(d);
    if |chunk.choices| == 0 then
      (d1, Ok(start + if chunk.usage.Some? then [Event(MessageDelta, 0, Text, None, NoReason, UsageFromWire(chunk.usage), true)] else []))
    else if |chunk.choices| != 1 || chunk.choices[0].index != 0 then (d1, Err(UnexpectedChoices))
    else
      var (d2, events) := ChoiceStep(d1, chunk.choices[0], UsageFromWire(chunk.usage), order);
      (d2, Ok(start + events))
  }

  /** One record; the order is the one in which the tool calls are walked, should the record end them. */
  function DecodeStep(d: Dec, record: Record, order: seq<int>): (Dec, Result<seq<Event>, DecodeError>) {
    match record
    case Heartbeat => (d, Ok([Bare(Ping)]))
    case Blank => (d, Ok([]))
    case ErrorRecord => (d, Ok([Bare(ErrorEvent)]))
    case Malformed => (d, Err(BadRecord))
    case DoneMark =>
      var (d1, stops) := CloseAll(d, order);
      (d1, Ok(stops + [Bare(MessageStop)]))
    case ChunkRecord(chunk) => ChunkStep(d, chunk, order)
  }

  /** The tool calls that are open when a record ends them. */
  function Closing(d: Dec, record: Record): map<int, nat> {
    match record
    case DoneMark => d.tools
    case ChunkRecord(chunk) => if |chunk.choices| == 1 then DeltaStep(Start(d).0, chunk.choices[0].delta).0.tools else map[]
    case _ => map[]
  }

  class StreamDecoder {
    var started: bool
    var nextBlockIdx: nat
    var textOpen: bool
    var textBlockIdx: nat
    var toolBlocks: map<int, nat>

    constructor ()
      ensures View() == NEW_DECODER
    {
      started, nextBlockIdx, textOpen, textBlockIdx, toolBlocks := false, 0, false, 0, map[];
    }

    function View(): Dec
      reads this
    {
      Dec(started, nextBlockIdx, textOpen, textBlockIdx, toolBlocks)
    }

    method Decode(record: Record) returns (r: Result<seq<Event>, DecodeError>, ghost order: seq<int>)
      modifies this
      ensures IsOrder(order, Closing(old(View()), record))
      ensures (View(), r) == DecodeStep(old(View()), record, order)
    {
      order := [];
      match record {
        case Heartbeat => return Ok([Bare(Ping)]), [];
        case Blank => return Ok([]), [];
        case ErrorRecord => return Ok([Bare(ErrorEvent)]), [];
        case Malformed => return Err(BadRecord), [];
        case DoneMark =>
          var events;
          events, order := CloseOpenBlocks();
          return Ok(events + [Bare(MessageStop)]), order;
        case ChunkRecord(chunk) =>
          r, order := DecodeChunk(chunk);
      }
    }

    method DecodeChunk(chunk: Chunk) returns (r: Result<seq<Event>, DecodeError>, ghost order: seq<int>)
      modifies this
      ensures IsOrder(order, Closing(old(View()), ChunkRecord(chunk)))
      ensures (View(), r) == ChunkStep(old(View()), chunk, order)
    {
      var events: seq<Event> := [];
      order := AnyOrder(Closing(View(), ChunkRecord(chunk)));
      if !started {
        started := true;
        events := [Bare(MessageStart)];
      }
      if |chunk.choices| == 0 {
        if chunk.usage.Some? {
          events := events + [Event(MessageDelta, 0, Text, None, NoReason, UsageFromWire(chunk.usage), true)];
        }
        assert events + [] == events;
        return Ok(events), order;
      }
      if |chunk.choices| != 1 || chunk.choices[0].index != 0 {
        return Err(UnexpectedChoices), order;
      }
      var choice := chunk.choices[0];
      var parts := DecodeDelta(choice.delta);
      if choice.finish.Some? {
        var stops;
        stops, order := CloseOpenBlocks();
        parts := parts + stops + [FinishEvent(choice.finish.value, UsageFromWire(chunk.usage))];
      }
      return Ok(events + parts), order;
    }

    method DecodeText(text: string) returns (events: seq<Event>)
      modifies this
      ensures (View(), events) == TextStep(old(View()), text)
    {
      events := [];
      if text != "" {
        if !textOpen {
          textOpen, textBlockIdx := true, nextBlockIdx;
          nextBlockIdx := nextBlockIdx + 1;
          events := [BlockEvent(BlockStart, textBlockIdx, Text, None)];
        }
        assert [] + [TextDelta(textBlockIdx, text)] == [TextDelta(textBlockIdx, text)];
        events := events + [TextDelta(textBlockIdx, text)];
      }
    }

    method DecodeTools(tcs: seq<ToolPart>) returns (events: seq<Event>)
      modifies this
      ensures (View(), events) == ToolSteps(old(View()), tcs)
    {
      events := [];
      ghost var all := ToolSteps(View(), tcs);
      for i := 0 to |tcs|
        invariant ToolSteps(View(), tcs[i..]).0 == all.0
        invariant events + ToolSteps(View(), tcs[i..]).1 == all.1
      {
        assert tcs[i..][0] == tcs[i] && tcs[i..][1..] == tcs[i + 1..];
        ghost var before := View();
        var more := HandleToolCallDelta(tcs[i]);
        assert events + (more + ToolSteps(View(), tcs[i + 1..]).1) == events + more + ToolSteps(View(), tcs[i + 1..]).1;
        events := events + more;
      }
      assert tcs[|tcs|..] == [] && events + [] == events;
    }

    method DecodeDelta(delta: Option<WireDelta>) returns (events: seq<Event>)
      modifies this
      ensures (View(), events) == DeltaStep(old(View()), delta)
    {
      events := [];
      if delta.Some? {
        events := DecodeText(ContentText(delta.value.content));
        var more := DecodeTools(delta.value.toolCalls);
        events := events + more;
      } else {
        assert events == [] + [];
      }
    }

    method HandleToolCallDelta(tc: ToolPart) returns (events: seq<Event>)
      modifies this
      ensures (View(), events) == ToolStep(old(View()), tc)
    {
      events := [];
      var block: nat := 0;
      if tc.index !in toolBlocks {
        events := CloseTextBlock();
        block := nextBlockIdx;
        nextBlockIdx := nextBlockIdx + 1;
        toolBlocks := toolBlocks[tc.index := block];
        events := events + [ToolStart(block, tc.id, tc.name)];
      } else {
        block := toolBlocks[tc.index];
      }
      assert events + [] == events && [] + ArgsEvents(block, tc.arguments) == ArgsEvents(block, tc.arguments);
      if tc.arguments != "" {
        events := events + [ArgsDelta(block, tc.arguments)];
      }
    }

    method CloseTextBlock() returns (events: seq<Event>)
      modifies this
      ensures (View(), events) == CloseText(old(View()))
    {
      if !textOpen {
        return [];
      }
      textOpen := false;
      return [Stop(textBlockIdx)];
    }

    method CloseOpenBlocks() returns (events: seq<Event>, ghost order: seq<int>)
      modifies this
      ensures IsOrder(order, old(toolBlocks))
      ensures (View(), events) == CloseAll(old(View()), order)
    {
      events := CloseTextBlock();
      ghost var text := events;
      order := [];
      var todo := toolBlocks.Keys;
      while todo != {}
        invariant todo <= toolBlocks.Keys && (forall k :: k in order <==> k in toolBlocks && k !in todo)
        invariant forall i, j | 0 <= i < j < |order| :: order[i] != order[j]
        invariant events == text + Stops(order, toolBlocks) && View() == CloseText(old(View())).0
        decreases todo
      {
        ghost var some := Member(todo);
        var k :| k in todo;
        events := events + [Stop(toolBlocks[k])];
        order := order + [k];
        todo := todo - {k};
      }
      toolBlocks := map[];
    }
  }

  lemma Member<T>(s: set<T>) returns (x: T)
    requires s != {}
    ensures x in s
  {
    x :| x in s;
  }

  lemma {:induction false} SomeOrder(todo: set<int>) returns (order: seq<int>)
    ensures forall i, j | 0 <= i < j < |order| :: order[i] != order[j]
    ensures forall k :: k in order <==> k in todo
    decreases todo
  {
    if todo == {} {
      order := [];
    } else {
      var k := Member(todo);
      var rest := SomeOrder(todo - {k});
      order := [k] + rest;
    }
  }

  ghost method AnyOrder(tools: map<int, nat>) returns (order: seq<int>)
    ensures IsOrder(order, tools)
  {
    order := SomeOrder(tools.Keys);
  }
}
