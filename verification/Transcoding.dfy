/** Serving an OpenAI client from an Anthropic upstream: decode, encode, and what the client reads. */
module Transcoding {
  import opened Int64
  import opened Canonical
  import opened OpenAIWire
  import opened OpenAIStreamDecoder
  import opened OpenAITrace
  import opened OpenAIStreamEncoder

  // ---- the Anthropic stream ----

  datatype BlockHead = BlockHead(kind: string, id: string, name: string)

  /** The fields a delta can have; stopReason is "" unless the message ends. */
  datatype Part = Part(text: string, partialJson: string, thinking: string, signature: string, stopReason: string)

  datatype Message =
    | WireStart(usage: Option<Usage>)
    | WireBlockStart(index: int, head: Option<BlockHead>)
    | WireBlockDelta(index: int, part: Option<Part>)
    | WireBlockStop(index: int)
    | WireMessageDelta(part: Option<Part>, usage: Option<Usage>)
    | WireStop
    | WirePing
    | WireError
    | WireOther
    | WireMalformed

  function WireBlockType(kind: string): BlockType {
    if kind == "thinking" then Thinking
    else if kind == "tool_use" then ToolUse
    else if kind == "image" then Image
    else Text
  }

  function StopToCanonical(r: string): StopReason {
    if r == "max_tokens" then MaxTokens
    else if r == "tool_use" then ToolCalls
    else if r == "stop_sequence" then StopSequence
    else EndTurn
  }

  function HeadType(head: Option<BlockHead>): BlockType { if head.Some? then WireBlockType(head.value.kind) else Text }

  function TypeOf(types: map<int, BlockType>, index: int): BlockType { if index in types then types[index] else Text }

  /** The fields of a delta that count for the type of its block. */
  function PartDelta(t: BlockType, part: Part): Delta {
    match t
    case ToolUse => NO_DELTA.(partialJson := part.partialJson)
    case Thinking => NO_DELTA.(thinking := part.thinking, signature := part.signature)
    case _ => NO_DELTA.(text := part.text)
  }

  predicate EndsMessage(part: Option<Part>) { part.Some? && part.value.stopReason != "" }

  function DecodeMessage(types: map<int, BlockType>, m: Message): (map<int, BlockType>, Result<seq<Event>, DecodeError>) {
    match m
    case WireStart(usage) => (types, Ok([Bare(MessageStart).(usage := usage)]))
    case WireBlockStart(index, head) =>
      var t := HeadType(head);
      (types[index := t],
       Ok([if t == ToolUse then ToolStart(index, head.value.id, head.value.name) else BlockEvent(BlockStart, index, t, None)]))
    case WireBlockDelta(index, part) =>
      var delta := if part.None? then None else Some(PartDelta(TypeOf(types, index), part.value));
      (types, Ok([BlockEvent(BlockDelta, index, Text, delta)]))
    case WireBlockStop(index) => (types, Ok([Stop(index)]))
    case WireMessageDelta(part, usage) =>
      var reason := if EndsMessage(part) then StopToCanonical(part.value.stopReason) else NoReason;
      (types, Ok([Event(MessageDelta, 0, Text, None, reason, usage, usage.Some? && EndsMessage(part))]))
    case WireStop => (types, Ok([Bare(MessageStop)]))
    case WirePing => (types, Ok([Bare(Ping)]))
    case WireError => (types, Ok([Bare(ErrorEvent)]))
    case WireOther => (types, Ok([]))
    case WireMalformed => (types, Err(BadRecord))
  }

  class AnthropicDecoder {
    var blockTypes: map<int, BlockType>

    constructor ()
      ensures blockTypes == map[]
    {
      blockTypes := map[];
    }

    method Decode(m: Message) returns (r: Result<seq<Event>, DecodeError>)
      modifies this
      ensures (blockTypes, r) == DecodeMessage(old(blockTypes), m)
    {
      match m {
        case WireStart(usage) => return Ok([Bare(MessageStart).(usage := usage)]);
        case WireBlockStart(index, head) =>
          var t, out := Text, BlockEvent(BlockStart, index, Text, None);
          if head.Some? {
            t := WireBlockType(head.value.kind);
            out := out.(blockType := t);
            if t == ToolUse {
              out := out.(delta := Some(NO_DELTA.(toolUseId := head.value.id, toolName := head.value.name)));
            }
          }
          blockTypes := blockTypes[index := t];
          return Ok([out]);
        case WireBlockDelta(index, part) =>
          var out := BlockEvent(BlockDelta, index, Text, None);
          if part.Some? {
            var delta := NO_DELTA;
            match if index in blockTypes then blockTypes[index] else Text {
              case ToolUse => delta := delta.(partialJson := part.value.partialJson);
              case Thinking => delta := delta.(thinking := part.value.thinking, signature := part.value.signature);
              case _ => delta := delta.(text := part.value.text);
            }
            out := out.(delta := Some(delta));
          }
          return Ok([out]);
        case WireBlockStop(index) => return Ok([Stop(index)]);
        case WireMessageDelta(part, usage) =>
          var out := Bare(MessageDelta);
          var terminal := part.Some? && part.value.stopReason != "";
          if terminal {
            out := out.(stopReason := StopToCanonical(part.value.stopReason));
          }
          if usage.Some? {
            out := out.(usage := usage, usageFinal := terminal);
          }
          return Ok([out]);
        case WireStop => return Ok([Bare(MessageStop)]);
        case WirePing => return Ok([Bare(Ping)]);
        case WireError => return Ok([Bare(ErrorEvent)]);
        case WireOther => return Ok([]);
        case WireMalformed => return Err(BadRecord);
      }
    }
  }

  // ---- what an Anthropic stream says ----

  /** What a block is for: its text, its thinking, or the arguments of a tool call. */
  datatype Role = TextBlock | ThinkingBlock | CallBlock(position: nat)

  datatype Saying = Saying(text: string, calls: seq<Call>, roles: map<int, Role>)

  const UNSAID := Saying("", [], map[])

  predicate SayingOk(s: Saying) { forall b | b in s.roles && s.roles[b].CallBlock? :: s.roles[b].position < |s.calls| }

  predicate IsKind(head: Option<BlockHead>, kind: string) { head.Some? && head.value.kind == kind }

  lemma KindIsType(head: Option<BlockHead>)
    ensures IsKind(head, "tool_use") <==> HeadType(head) == ToolUse
    ensures IsKind(head, "thinking") <==> HeadType(head) == Thinking
  {
    assert |"tool_use"| == |"thinking"| && "tool_use"[1] != "thinking"[1];
    assert |"image"| != |"thinking"|;
  }

  function Say(s: Saying, m: Message): (r: Saying)
    requires SayingOk(s)
    ensures SayingOk(r)
  {
    match m
    case WireBlockStart(index, head) =>
      if IsKind(head, "tool_use") then
        s.(calls := s.calls + [Call(head.value.id, head.value.name, "")], roles := s.roles[index := CallBlock(|s.calls|)])
      else s.(roles := s.roles[index := if IsKind(head, "thinking") then ThinkingBlock else TextBlock])
    case WireBlockDelta(index, part) =>
      if part.None? || index !in s.roles then s
      else (match s.roles[index]
            case TextBlock => s.(text := s.text + part.value.text)
            case ThinkingBlock => s
            case CallBlock(p) => s.(calls := Extend(s.calls, p, part.value.partialJson)))
    case _ => s
  }

  function SayAll(s: Saying, stream: seq<Message>): Saying
    requires SayingOk(s)
    decreases |stream|
  {
    if stream == [] then s else SayAll(Say(s, stream[0]), stream[1..])
  }

  predicate Ends(m: Message) { m.WireStop? || (m.WireMessageDelta? && EndsMessage(m.part)) }

  predicate Allowed(used: set<int>, ended: bool, m: Message) {
    match m
    case WireBlockStart(_, _) => !ended
    case WireBlockDelta(index, _) => index in used && !ended
    case WireMalformed => false
    case _ => true
  }

  function Used(used: set<int>, m: Message): set<int> { if m.WireBlockStart? then used + {m.index} else used }

  /** Deltas go to blocks that have started, and neither blocks nor deltas come after the message has ended. */
  predicate WellFormed(used: set<int>, ended: bool, stream: seq<Message>)
    decreases |stream|
  {
    stream != [] ==> Allowed(used, ended, stream[0]) && WellFormed(Used(used, stream[0]), ended || Ends(stream[0]), stream[1..])
  }

  predicate StartsCall(m: Message) { m.WireBlockStart? && IsKind(m.head, "tool_use") }

  /** No two tool calls of the stream start on the same block index. */
  predicate DistinctCalls(stream: seq<Message>) {
    forall i, j | 0 <= i < j < |stream| && StartsCall(stream[i]) && StartsCall(stream[j]) :: stream[i].index != stream[j].index
  }

  /** The tool calls of the stream that start on a block index on which a call has started before. */
  function Repeats(called: set<int>, stream: seq<Message>): nat
    decreases |stream|
  {
    if stream == [] then 0
    else (if StartsCall(stream[0]) && stream[0].index in called then 1 else 0) + Repeats(Called(called, stream[0]), stream[1..])
  }

  function Called(called: set<int>, m: Message): set<int> { if StartsCall(m) then called + {m.index} else called }

  lemma {:induction false} RepeatsAreNotDistinct(called: set<int>, stream: seq<Message>)
    ensures Repeats(called, stream) == 0
        <==> DistinctCalls(stream) && forall i | 0 <= i < |stream| && StartsCall(stream[i]) :: stream[i].index !in called
    decreases |stream|
  {
    if stream != [] {
      var m, tail := stream[0], stream[1..];
      RepeatsAreNotDistinct(Called(called, m), tail);
      assert forall i | 0 <= i < |tail| :: tail[i] == stream[i + 1];
      assert stream == [m] + tail;
      if Repeats(called, stream) != 0 && Repeats(Called(called, m), tail) != 0 && DistinctCalls(tail) {
        var i :| 0 <= i < |tail| && StartsCall(tail[i]) && tail[i].index in Called(called, m);
        assert stream[i + 1] == tail[i];
      }
    }
  }

  /** The records written for a stream. */
  function Transcode(types: map<int, BlockType>, e: Enc, stream: seq<Message>): seq<Record>
    decreases |stream|
  {
    if stream == [] then []
    else
      var (types1, r) := DecodeMessage(types, stream[0]);
      if r.Err? then []
      else
        var (e1, records) := EncodeAll(e, r.value);
        records + Transcode(types1, e1, stream[1..])
  }

  // ---- the records carry what the stream says ----

  predicate SameRole(role: Role, t: BlockType) {
    match t
    case ToolUse => role.CallBlock?
    case Thinking => role == ThinkingBlock
    case _ => role == TextBlock
  }

  /** The decoder knows the type of every block, and while the message goes on, every call that started can be extended. */
  ghost predicate Loosely(s: Saying, types: map<int, BlockType>, e: Enc, k: Carried, ended: bool) {
    && SayingOk(s) && CarriedOk(k)
    && (forall b | b in s.roles :: b in types && SameRole(s.roles[b], types[b]))
    && (forall b | b in e.toolIndex :: e.toolIndex[b] < e.nextTool)
    && (forall i | i in k.current :: 0 <= i < e.nextTool)
    && (!ended ==> forall b | b in e.toolIndex :: e.toolIndex[b] in k.current)
    && (forall b | b in s.roles && s.roles[b].CallBlock? :: b in e.toolIndex)
  }

  /** Moreover, what was said so far was carried so far, and each block extends its own call. */
  ghost predicate Follows(s: Saying, types: map<int, BlockType>, e: Enc, k: Carried, ended: bool) {
    && Loosely(s, types, e, k, ended) && s.text == k.text && s.calls == k.calls
    && (!ended ==> forall b | b in s.roles && s.roles[b].CallBlock? :: k.current[e.toolIndex[b]] == s.roles[b].position)
  }

  lemma EncodeOne(e: Enc, ev: Event)
    ensures EncodeAll(e, [ev]) == EncodeStep(e, ev)
  {
    assert [ev][1..] == [];
    assert EncodeStep(e, ev).1 + [] == EncodeStep(e, ev).1;
  }

  lemma CarryOne(k: Carried, record: Record)
    requires CarriedOk(k)
    ensures CarryAll(k, [record]) == Carry(k, record)
  {
    assert [record][1..] == [];
  }

  lemma CarryPart(k: Carried, part: ToolPart)
    requires CarriedOk(k)
    ensures CarryAll(k, [ToolChunk(part)]) == CarryTool(k, part)
  {
    CarryOne(k, ToolChunk(part));
    assert k.text + "" == k.text && k.(text := k.text) == k;
    assert [part][1..] == [] && CarryTools(CarryTool(k, part), []) == CarryTool(k, part);
  }

  lemma CarryText(k: Carried, text: string)
    requires CarriedOk(k)
    ensures CarryAll(k, [ChoiceChunk(WireDelta(Plain(text), []), None)]) == k.(text := k.text + text)
  {
    CarryOne(k, ChoiceChunk(WireDelta(Plain(text), []), None));
  }

  lemma CarryEmpty(k: Carried, finish: Option<string>)
    requires CarriedOk(k)
    ensures CarryAll(k, [ChoiceChunk(WireDelta(NoContent, []), finish)]) == if finish.Some? then k.(current := map[]) else k
  {
    CarryOne(k, ChoiceChunk(WireDelta(NoContent, []), finish));
    assert k.text + "" == k.text;
  }

  lemma NewCallFollows(s: Saying, types: map<int, BlockType>, e: Enc, k: Carried, index: int, id: string, name: string)
    requires Follows(s, types, e, k, false) && index !in e.toolIndex
    ensures Follows(s.(calls := s.calls + [Call(id, name, "")], roles := s.roles[index := CallBlock(|s.calls|)]),
                    types[index := ToolUse], EncodeStep(e, ToolStart(index, id, name)).0,
                    CarryTool(k, ToolPart(e.nextTool, id, name, "")), false)
  {
  }

  lemma NewBlockFollows(s: Saying, types: map<int, BlockType>, e: Enc, k: Carried, index: int, t: BlockType)
    requires Follows(s, types, e, k, false) && t != ToolUse
    ensures Follows(s.(roles := s.roles[index := if t == Thinking then ThinkingBlock else TextBlock]), types[index := t], e, k, false)
  {
  }

  lemma BlockStartFollows(s: Saying, types: map<int, BlockType>, e: Enc, k: Carried, index: int, head: Option<BlockHead>)
    requires Follows(s, types, e, k, false) && (HeadType(head) == ToolUse ==> index !in e.toolIndex)
    ensures var m := WireBlockStart(index, head);
      var (types1, r) := DecodeMessage(types, m);
      var (e1, records) := EncodeAll(e, r.value);
      Follows(Say(s, m), types1, e1, CarryAll(k, records), false)
  {
    var t := HeadType(head);
    KindIsType(head);
    if t == ToolUse {
      EncodeOne(e, ToolStart(index, head.value.id, head.value.name));
      CarryPart(k, ToolPart(e.nextTool, head.value.id, head.value.name, ""));
      NewCallFollows(s, types, e, k, index, head.value.id, head.value.name);
    } else {
      EncodeOne(e, BlockEvent(BlockStart, index, t, None));
      NewBlockFollows(s, types, e, k, index, t);
    }
  }

  lemma BlockDeltaFollows(s: Saying, types: map<int, BlockType>, e: Enc, k: Carried, index: int, part: Option<Part>)
    requires Follows(s, types, e, k, false) && index in s.roles
    ensures var m := WireBlockDelta(index, part);
      var (e1, records) := EncodeAll(e, DecodeMessage(types, m).1.value);
      e1 == e && Follows(Say(s, m), types, e, CarryAll(k, records), false)
  {
    var r := DecodeMessage(types, WireBlockDelta(index, part)).1;
    EncodeOne(e, r.value[0]);
    if part.Some? {
      match s.roles[index]
      case TextBlock =>
        CarryText(k, part.value.text);
        if part.value.text == "" { assert s.text + part.value.text == s.text; }
      case ThinkingBlock =>
      case CallBlock(p) =>
        CarryPart(k, ToolPart(e.toolIndex[index], "", "", part.value.partialJson));
        if part.value.partialJson == "" { NoArguments(s.calls, p); }
    }
  }

  lemma MessageDeltaCarries(e: Enc, k: Carried, ev: Event)
    requires CarriedOk(k) && ev.kind == MessageDelta
    ensures CarryAll(k, EncodeStep(e, ev).1) == if ev.stopReason == NoReason then k else k.(current := map[])
  {
    var (e1, records) := EncodeStep(e, ev);
    var finish := if ev.stopReason == NoReason then [] else [ChoiceChunk(WireDelta(NoContent, []), Some(StopToFinish(ev.stopReason)))];
    if ev.stopReason != NoReason { CarryEmpty(k, Some(StopToFinish(ev.stopReason))); }
    if SendsUsage(e, ev) {
      CarryConcat(k, finish, [UsageChunk(e1.usage)]);
      CarryOne(CarryAll(k, finish), UsageChunk(e1.usage));
    }
  }

  lemma EndCarries(types: map<int, BlockType>, e: Enc, k: Carried, m: Message)
    requires CarriedOk(k) && m.WireMessageDelta?
    ensures var (e1, records) := EncodeAll(e, DecodeMessage(types, m).1.value);
      e1.toolIndex == e.toolIndex && e1.nextTool == e.nextTool && CarryAll(k, records) == if Ends(m) then k.(current := map[]) else k
  {
    var ev := DecodeMessage(types, m).1.value[0];
    EncodeOne(e, ev);
    MessageDeltaCarries(e, k, ev);
  }

  /** Any message but a block start or delta carries nothing; the end of the message ends every call. */
  lemma OtherCarries(types: map<int, BlockType>, e: Enc, k: Carried, m: Message)
    requires CarriedOk(k) && !m.WireBlockStart? && !m.WireBlockDelta? && !m.WireMalformed?
    ensures var (e1, records) := EncodeAll(e, DecodeMessage(types, m).1.value);
      e1.toolIndex == e.toolIndex && e1.nextTool == e.nextTool && CarryAll(k, records) == if Ends(m) then k.(current := map[]) else k
  {
    var events := DecodeMessage(types, m).1.value;
    if m.WireMessageDelta? {
      EndCarries(types, e, k, m);
    } else if events != [] {
      EncodeOne(e, events[0]);
      match m
      case WireStart(_) => CarryEmpty(k, None);
      case WireStop => CarryOne(k, DoneMark);
      case WireError => CarryOne(k, ErrorRecord);
      case _ =>
    }
  }

  lemma OtherFollows(s: Saying, types: map<int, BlockType>, e: Enc, k: Carried, e1: Enc, k1: Carried, ended: bool, ends: bool)
    requires Follows(s, types, e, k, ended) && e1.toolIndex == e.toolIndex && e1.nextTool == e.nextTool
    requires k1 == if ends then k.(current := map[]) else k
    ensures Follows(s, types, e1, k1, ended || ends)
  {
  }

  lemma MessageFollows(s: Saying, types: map<int, BlockType>, e: Enc, k: Carried, m: Message, ended: bool)
    requires Follows(s, types, e, k, ended) && Allowed(s.roles.Keys, ended, m)
    requires StartsCall(m) ==> m.index !in e.toolIndex
    ensures var (types1, r) := DecodeMessage(types, m);
      var (e1, records) := EncodeAll(e, r.value);
      Follows(Say(s, m), types1, e1, CarryAll(k, records), ended || Ends(m))
  {
    if m.WireBlockStart? {
      KindIsType(m.head);
      BlockStartFollows(s, types, e, k, m.index, m.head);
    } else if m.WireBlockDelta? {
      BlockDeltaFollows(s, types, e, k, m.index, m.part);
    } else {
      var (e1, records) := EncodeAll(e, DecodeMessage(types, m).1.value);
      OtherCarries(types, e, k, m);
      OtherFollows(s, types, e, k, e1, CarryAll(k, records), ended, Ends(m));
    }
  }

  lemma SayUses(s: Saying, m: Message)
    requires SayingOk(s)
    ensures Say(s, m).roles.Keys == Used(s.roles.Keys, m)
  {
  }

  /** The records written for a well-formed stream whose calls have indices of their own carry what the stream says. */
  lemma {:induction false} TranscodingCarries(s: Saying, types: map<int, BlockType>, e: Enc, k: Carried, ended: bool, stream: seq<Message>)
    requires Follows(s, types, e, k, ended) && WellFormed(s.roles.Keys, ended, stream) && Repeats(e.toolIndex.Keys, stream) == 0
    ensures var carried, said := CarryAll(k, Transcode(types, e, stream)), SayAll(s, stream);
      carried.text == said.text && carried.calls == said.calls
    decreases |stream|
  {
    if stream != [] {
      var m := stream[0];
      var (types1, r) := DecodeMessage(types, m);
      var (e1, records) := EncodeAll(e, r.value);
      MessageFollows(s, types, e, k, m, ended);
      SayUses(s, m);
      MessageLoses(s, types, e, k, m, ended);
      CarryConcat(k, records, Transcode(types1, e1, stream[1..]));
      TranscodingCarries(Say(s, m), types1, e1, CarryAll(k, records), ended || Ends(m), stream[1..]);
    }
  }

  // ---- a call on a used index is lost ----

  /** The calls said so far that no record carries. */
  function Lost(s: Saying, k: Carried): int { |s.calls| - |k.calls| }

  lemma StartLoses(s: Saying, types: map<int, BlockType>, e: Enc, k: Carried, index: int, id: string, name: string)
    requires Loosely(s, types, e, k, false)
    ensures var e1 := EncodeStep(e, ToolStart(index, id, name)).0;
      var s1 := s.(calls := s.calls + [Call(id, name, "")], roles := s.roles[index := CallBlock(|s.calls|)]);
      var k1 := CarryTool(k, ToolPart(AssignToolIndex(e, index).1, id, name, ""));
      && Loosely(s1, types[index := ToolUse], e1, k1, false)
      && Lost(s1, k1) == Lost(s, k) + if index in e.toolIndex then 1 else 0
  {
  }

  lemma BlockStartLoses(s: Saying, types: map<int, BlockType>, e: Enc, k: Carried, index: int, head: Option<BlockHead>)
    requires Loosely(s, types, e, k, false)
    ensures var m := WireBlockStart(index, head);
      var (types1, r) := DecodeMessage(types, m);
      var (e1, records) := EncodeAll(e, r.value);
      var s1, k1 := Say(s, m), CarryAll(k, records);
      && Loosely(s1, types1, e1, k1, false) && e1.toolIndex.Keys == Called(e.toolIndex.Keys, m)
      && Lost(s1, k1) == Lost(s, k) + if StartsCall(m) && index in e.toolIndex then 1 else 0
  {
    KindIsType(head);
    if HeadType(head) == ToolUse {
      EncodeOne(e, ToolStart(index, head.value.id, head.value.name));
      CarryPart(k, ToolPart(AssignToolIndex(e, index).1, head.value.id, head.value.name, ""));
      StartLoses(s, types, e, k, index, head.value.id, head.value.name);
    } else {
      EncodeOne(e, BlockEvent(BlockStart, index, HeadType(head), None));
    }
  }

  lemma BlockDeltaLoses(s: Saying, types: map<int, BlockType>, e: Enc, k: Carried, index: int, part: Option<Part>)
    requires Loosely(s, types, e, k, false) && index in s.roles
    ensures var m := WireBlockDelta(index, part);
      var (e1, records) := EncodeAll(e, DecodeMessage(types, m).1.value);
      var s1, k1 := Say(s, m), CarryAll(k, records);
      e1 == e && Loosely(s1, types, e, k1, false) && Lost(s1, k1) == Lost(s, k)
  {
    EncodeOne(e, DecodeMessage(types, WireBlockDelta(index, part)).1.value[0]);
    if part.Some? {
      match s.roles[index]
      case TextBlock => CarryText(k, part.value.text);
      case ThinkingBlock =>
      case CallBlock(p) => CarryPart(k, ToolPart(e.toolIndex[index], "", "", part.value.partialJson));
    }
  }

  lemma MessageLoses(s: Saying, types: map<int, BlockType>, e: Enc, k: Carried, m: Message, ended: bool)
    requires Loosely(s, types, e, k, ended) && Allowed(s.roles.Keys, ended, m)
    ensures var (types1, r) := DecodeMessage(types, m);
      var (e1, records) := EncodeAll(e, r.value);
      var s1, k1 := Say(s, m), CarryAll(k, records);
      && Loosely(s1, types1, e1, k1, ended || Ends(m)) && e1.toolIndex.Keys == Called(e.toolIndex.Keys, m)
      && Lost(s1, k1) == Lost(s, k) + if StartsCall(m) && m.index in e.toolIndex then 1 else 0
  {
    if m.WireBlockStart? {
      BlockStartLoses(s, types, e, k, m.index, m.head);
    } else if m.WireBlockDelta? {
      BlockDeltaLoses(s, types, e, k, m.index, m.part);
    } else {
      OtherCarries(types, e, k, m);
    }
  }

  /** However the stream goes on, exactly one call is lost for every call that starts on an index used for a call before. */
  lemma {:induction false} RepeatedCallsAreLost(s: Saying, types: map<int, BlockType>, e: Enc, k: Carried, ended: bool, stream: seq<Message>)
    requires Loosely(s, types, e, k, ended) && WellFormed(s.roles.Keys, ended, stream)
    ensures Lost(SayAll(s, stream), CarryAll(k, Transcode(types, e, stream))) == Lost(s, k) + Repeats(e.toolIndex.Keys, stream)
    decreases |stream|
  {
    if stream != [] {
      var m := stream[0];
      var (types1, r) := DecodeMessage(types, m);
      var (e1, records) := EncodeAll(e, r.value);
      MessageLoses(s, types, e, k, m, ended);
      SayUses(s, m);
      CarryConcat(k, records, Transcode(types1, e1, stream[1..]));
      RepeatedCallsAreLost(Say(s, m), types1, e1, CarryAll(k, records), ended || Ends(m), stream[1..]);
    }
  }

  // ---- the client's side ----

  lemma {:induction false} EncodesAcceptable(e: Enc, events: seq<Event>)
    ensures forall i | 0 <= i < |EncodeAll(e, events).1| :: Acceptable(EncodeAll(e, events).1[i])
    decreases |events|
  {
    if events != [] { EncodesAcceptable(EncodeStep(e, events[0]).0, events[1..]); }
  }

  lemma {:induction false} TranscodesAcceptable(types: map<int, BlockType>, e: Enc, stream: seq<Message>)
    ensures forall i | 0 <= i < |Transcode(types, e, stream)| :: Acceptable(Transcode(types, e, stream)[i])
    decreases |stream|
  {
    if stream != [] {
      var (types1, r) := DecodeMessage(types, stream[0]);
      if r.Ok? {
        EncodesAcceptable(e, r.value);
        TranscodesAcceptable(types1, EncodeAll(e, r.value).0, stream[1..]);
      }
    }
  }

  lemma TranscodedIsAccepted(stream: seq<Message>, turns: seq<Turn>)
    requires RecordsOf(turns) == Transcode(map[], NEW_ENCODER, stream)
    ensures Run(NEW_DECODER, turns).Ok?
  {
    TranscodesAcceptable(map[], NEW_ENCODER, stream);
    RecordOfTurn(turns);
    AcceptedIff(NEW_DECODER, turns);
  }

  /** A client that reads the transcoded stream, walking its open calls in any order, accepts it. It reads the text and the
      ordered tool calls, with id, name and arguments, that the upstream said, exactly when no two calls start on the same
      block index; otherwise it reads fewer calls. Only thinking is always gone. */
  lemma TranscodingPreservesContentIff(stream: seq<Message>, turns: seq<Turn>)
    requires WellFormed({}, false, stream) && RecordsOf(turns) == Transcode(map[], NEW_ENCODER, stream)
    ensures Run(NEW_DECODER, turns).Ok?
    ensures var read, said := AbsorbAll(SILENCE, Run(NEW_DECODER, turns).value.1), SayAll(UNSAID, stream);
      && (read.text == said.text && read.calls == said.calls <==> DistinctCalls(stream))
      && |said.calls| == |read.calls| + Repeats({}, stream)
  {
    TranscodedIsAccepted(stream, turns);
    AcceptedStreamsSayWhatTheyCarry(turns);
    assert UNSAID.roles.Keys == {} && NEW_ENCODER.toolIndex.Keys == {};
    RepeatsAreNotDistinct({}, stream);
    RepeatedCallsAreLost(UNSAID, map[], NEW_ENCODER, NOTHING, false, stream);
    if DistinctCalls(stream) { TranscodingCarries(UNSAID, map[], NEW_ENCODER, NOTHING, false, stream); }
  }

  /** The end mark comes last and only once. */
  predicate DoneOnce(records: seq<Record>) {
    && records != [] && records[|records| - 1] == DoneMark
    && forall i | 0 <= i < |records| - 1 :: records[i] != DoneMark
  }

  predicate StopsOnce(stream: seq<Message>) {
    && stream != [] && stream[|stream| - 1] == WireStop
    && forall i | 0 <= i < |stream| - 1 :: stream[i] != WireStop
  }

  lemma MessageEncodes(types: map<int, BlockType>, e: Enc, m: Message)
    requires !m.WireMalformed?
    ensures var records := EncodeAll(e, DecodeMessage(types, m).1.value).1;
      if m == WireStop then records == [DoneMark] else DoneMark !in records
  {
    var events := DecodeMessage(types, m).1.value;
    if events != [] { EncodeOne(e, events[0]); }
  }

  lemma {:induction false} TranscodesDoneOnce(types: map<int, BlockType>, e: Enc, used: set<int>, ended: bool, stream: seq<Message>)
    requires WellFormed(used, ended, stream) && StopsOnce(stream)
    ensures DoneOnce(Transcode(types, e, stream))
    decreases |stream|
  {
    var m, tail := stream[0], stream[1..];
    var (types1, r) := DecodeMessage(types, m);
    var (e1, records) := EncodeAll(e, r.value);
    MessageEncodes(types, e, m);
    if |stream| == 1 {
      assert Transcode(types1, e1, tail) == [];
    } else {
      assert stream[0] != WireStop && forall i | 0 <= i < |tail| :: tail[i] == stream[i + 1];
      TranscodesDoneOnce(types1, e1, Used(used, m), ended || Ends(m), tail);
      assert forall i | 0 <= i < |records| :: records[i] in records;
    }
  }

  lemma {:induction false} RecordOfTurn(turns: seq<Turn>)
    ensures |RecordsOf(turns)| == |turns| && forall i | 0 <= i < |turns| :: RecordsOf(turns)[i] == turns[i].record
    decreases |turns|
  {
    if turns != [] {
      RecordOfTurn(turns[1..]);
      assert forall i | 0 < i < |turns| :: turns[i] == turns[1..][i - 1];
    }
  }

  /** A well-formed upstream stream that ends with its stop reaches the client as a well-bracketed trace: every block is
      started and stopped exactly once, and the message ends with nothing open. */
  lemma TranscodedStreamsAreWellBracketed(stream: seq<Message>, turns: seq<Turn>)
    requires WellFormed({}, false, stream) && StopsOnce(stream)
    requires RecordsOf(turns) == Transcode(map[], NEW_ENCODER, stream) && Ordered(NEW_DECODER, turns)
    ensures Run(NEW_DECODER, turns).Ok?
    ensures var events := Run(NEW_DECODER, turns).value.1;
      && FeedAll(NEW_SHAPE, events).Some? && FeedAll(NEW_SHAPE, events).value.ended
      && forall b :: Count(events, BlockStop, b) == Count(events, BlockStart, b) <= 1
  {
    TranscodedIsAccepted(stream, turns);
    TranscodesDoneOnce(map[], NEW_ENCODER, {}, false, stream);
    RecordOfTurn(turns);
    assert forall i | 0 <= i < |turns| - 1 :: RecordsOf(turns)[i] != DoneMark;
    AcceptedStreamsAreWellBracketed(turns);
  }

  /** Two tool calls on one block index arrive as one. */
  lemma ReusedIndexMergesCalls()
    ensures var stream := [WireBlockStart(0, Some(BlockHead("tool_use", "a", "f"))), WireBlockStart(0, Some(BlockHead("tool_use", "b", "g")))];
      |SayAll(UNSAID, stream).calls| == 2 && |CarryAll(NOTHING, Transcode(map[], NEW_ENCODER, stream)).calls| == 1
  {
    var first, second := WireBlockStart(0, Some(BlockHead("tool_use", "a", "f"))), WireBlockStart(0, Some(BlockHead("tool_use", "b", "g")));
    var s1 := Say(UNSAID, first);
    assert [first, second][1..] == [second] && [second][1..] == [];
    var a, b := ToolStart(0, "a", "f"), ToolStart(0, "b", "g");
    var e1 := EncodeStep(NEW_ENCODER, a).0;
    EncodeOne(NEW_ENCODER, a);
    EncodeOne(e1, b);
    var ra, rb := [ToolChunk(ToolPart(0, "a", "f", ""))], [ToolChunk(ToolPart(0, "b", "g", ""))];
    assert "tool_use" != "thinking";
    assert DecodeMessage(map[], first) == (map[0 := ToolUse], Ok([a]));
    assert map[0 := ToolUse][0 := ToolUse] == map[0 := ToolUse];
    assert DecodeMessage(map[0 := ToolUse], second) == (map[0 := ToolUse], Ok([b]));
    assert Transcode(map[0 := ToolUse], e1, [second]) == rb + [];
    assert Transcode(map[], NEW_ENCODER, [first, second]) == ra + (rb + []);
    CarryConcat(NOTHING, ra, rb + []);
    CarryPart(NOTHING, ToolPart(0, "a", "f", ""));
    assert rb + [] == rb;
    CarryPart(CarryTool(NOTHING, ToolPart(0, "a", "f", "")), ToolPart(0, "b", "g", ""));
  }
}
