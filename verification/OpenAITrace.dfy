/** What an accepted OpenAI stream decodes to: a well-bracketed trace that says what the chunks carried. */
module OpenAITrace {
  import opened Int64
  import opened Canonical
  import opened OpenAIUsage
  import opened OpenAIWire
  import opened OpenAIStreamDecoder

  // ---- runs ----

  datatype Turn = Turn(record: Record, order: seq<int>)

  /** Each turn walks the open tool calls in some order of its own. */
  ghost predicate Ordered(d: Dec, turns: seq<Turn>)
    decreases |turns|
  {
    turns != [] ==>
      && IsOrder(turns[0].order, Closing(d, turns[0].record))
      && Ordered(DecodeStep(d, turns[0].record, turns[0].order).0, turns[1..])
  }

  /** The events of a stream, up to the first record that is not accepted. */
  function Run(d: Dec, turns: seq<Turn>): Result<(Dec, seq<Event>), DecodeError>
    decreases |turns|
  {
    if turns == [] then Ok((d, []))
    else
      var (d1, r) := DecodeStep(d, turns[0].record, turns[0].order);
      if r.Err? then Err(r.error)
      else
        var later := Run(d1, turns[1..]);
        if later.Err? then later else Ok((later.value.0, r.value + later.value.1))
  }

  function RecordsOf(turns: seq<Turn>): seq<Record> { if turns == [] then [] else [turns[0].record] + RecordsOf(turns[1..]) }

  // ---- well-bracketed traces ----

  /** What a trace has done so far: which blocks are open, and the index the next block must have. */
  datatype Shape = Shape(started: bool, next: nat, open: map<int, BlockType>, ended: bool)

  const NEW_SHAPE := Shape(false, 0, map[], false)

  predicate Suits(t: BlockType, delta: Option<Delta>) {
    delta.Some? && match t
                   case Text => delta.value.text != "" && delta.value.partialJson == ""
                   case ToolUse => delta.value.text == "" && delta.value.partialJson != ""
                   case _ => false
  }

  /** Blocks come after the one message start, with consecutive indices; deltas go to open blocks and are of their kind;
      a block is stopped while open; a stop reason and the end of the message come when no block is open. */
  function Feed(sh: Shape, ev: Event): Option<Shape> {
    if sh.ended then None
    else match ev.kind
         case MessageStart => if sh.started then None else Some(sh.(started := true))
         case BlockStart =>
           if sh.started && ev.blockIndex == sh.next
           then Some(sh.(next := sh.next + 1, open := sh.open[ev.blockIndex := ev.blockType])) else None
         case BlockDelta => if ev.blockIndex in sh.open && Suits(sh.open[ev.blockIndex], ev.delta) then Some(sh) else None
         case BlockStop => if ev.blockIndex in sh.open then Some(sh.(open := sh.open - {ev.blockIndex})) else None
         case MessageDelta => if sh.started && (ev.stopReason == NoReason || sh.open == map[]) then Some(sh) else None
         case MessageStop => if sh.open == map[] then Some(sh.(ended := true)) else None
         case Ping => Some(sh)
         case ErrorEvent => Some(sh)
  }

  function FeedAll(sh: Shape, events: seq<Event>): Option<Shape>
    decreases |events|
  {
    if events == [] then Some(sh)
    else match Feed(sh, events[0])
         case None => None
         case Some(sh1) => FeedAll(sh1, events[1..])
  }

  lemma {:induction false} FeedConcat(sh: Shape, a: seq<Event>, b: seq<Event>)
    ensures FeedAll(sh, a + b) == match FeedAll(sh, a) case None => None case Some(sh1) => FeedAll(sh1, b)
    decreases |a|
  {
    if a == [] {
      assert a + b == b;
    } else {
      assert (a + b)[0] == a[0] && (a + b)[1..] == a[1..] + b;
      if Feed(sh, a[0]).Some? { FeedConcat(Feed(sh, a[0]).value, a[1..], b); }
    }
  }

  lemma FeedOne(sh: Shape, ev: Event)
    ensures FeedAll(sh, [ev]) == Feed(sh, ev)
  {
    assert [ev][1..] == [];
  }

  function Count(events: seq<Event>, kind: EventKind, b: int): nat {
    if events == [] then 0 else (if events[0].kind == kind && events[0].blockIndex == b then 1 else 0) + Count(events[1..], kind, b)
  }

  /** In a trace from one shape to another, every block that starts is stopped exactly once, or is still open. */
  lemma {:induction false} EachBlockStopsOnce(sh: Shape, events: seq<Event>, b: int)
    requires FeedAll(sh, events).Some? && forall x | x in sh.open :: 0 <= x < sh.next
    ensures var end := FeedAll(sh, events).value;
      && (forall x | x in end.open :: 0 <= x < end.next)
      && Count(events, BlockStart, b) == (if sh.next <= b < end.next then 1 else 0)
      && Count(events, BlockStop, b) + (if b in end.open then 1 else 0) == Count(events, BlockStart, b) + (if b in sh.open then 1 else 0)
      && sh.next <= end.next
    decreases |events|
  {
    if events != [] { EachBlockStopsOnce(Feed(sh, events[0]).value, events[1..], b); }
  }

  // ---- the decoder keeps to the shape ----

  /** The blocks the decoder holds open are the open blocks of the trace. */
  ghost predicate Agrees(d: Dec, sh: Shape) {
    && !sh.ended && sh.started == d.started && sh.next == d.next
    && (forall b | b in sh.open :: 0 <= b < d.next)
    && (d.textOpen ==> d.textIdx in sh.open && sh.open[d.textIdx] == Text)
    && (forall i | i in d.tools :: d.tools[i] in sh.open && sh.open[d.tools[i]] == ToolUse)
    && (forall b | b in sh.open :: (d.textOpen && b == d.textIdx) || exists i :: i in d.tools && d.tools[i] == b)
    && (forall i, j | i in d.tools && j in d.tools && d.tools[i] == d.tools[j] :: i == j)
  }

  ghost predicate Keeps(sh: Shape, d: Dec, events: seq<Event>) {
    FeedAll(sh, events).Some? && Agrees(d, FeedAll(sh, events).value)
  }

  lemma KeepsBoth(sh: Shape, a: seq<Event>, d: Dec, b: seq<Event>)
    requires FeedAll(sh, a).Some? && Keeps(FeedAll(sh, a).value, d, b)
    ensures Keeps(sh, d, a + b)
  {
    FeedConcat(sh, a, b);
  }

  lemma TextKeeps(sh: Shape, d: Dec, text: string)
    requires Agrees(d, sh) && d.started
    ensures Keeps(sh, TextStep(d, text).0, TextStep(d, text).1)
  {
    var (d1, events) := TextStep(d, text);
    if text != "" && d.textOpen {
      FeedOne(sh, TextDelta(d.textIdx, text));
    } else if text != "" {
      var start := BlockEvent(BlockStart, d.next, Text, None);
      FeedOne(sh, start);
      var sh1 := Feed(sh, start).value;
      FeedOne(sh1, TextDelta(d.next, text));
      FeedConcat(sh, [start], [TextDelta(d.next, text)]);
    }
  }

  lemma CloseTextKeeps(sh: Shape, d: Dec)
    requires Agrees(d, sh)
    ensures Keeps(sh, CloseText(d).0, CloseText(d).1)
  {
    if d.textOpen { FeedOne(sh, Stop(d.textIdx)); }
  }

  lemma ArgsKeep(sh: Shape, d: Dec, b: int, args: string)
    requires Agrees(d, sh) && b in sh.open && sh.open[b] == ToolUse
    ensures Keeps(sh, d, ArgsEvents(b, args))
  {
    if args != "" { FeedOne(sh, ArgsDelta(b, args)); }
  }

  lemma OpenToolKeeps(sh: Shape, d: Dec, tc: ToolPart)
    requires Agrees(d, sh) && d.started && !d.textOpen && tc.index !in d.tools
    ensures var d1 := d.(tools := d.tools[tc.index := d.next], next := d.next + 1);
      Feed(sh, ToolStart(d.next, tc.id, tc.name)).Some? && Agrees(d1, Feed(sh, ToolStart(d.next, tc.id, tc.name)).value)
  {
    var d1 := d.(tools := d.tools[tc.index := d.next], next := d.next + 1);
    var sh1 := Feed(sh, ToolStart(d.next, tc.id, tc.name)).value;
    forall b | b in sh1.open ensures exists i :: i in d1.tools && d1.tools[i] == b {
      if b == d.next {
        assert d1.tools[tc.index] == b;
      } else {
        var i :| i in d.tools && d.tools[i] == b;
        assert d1.tools[i] == b;
      }
    }
  }

  lemma ToolKeeps(sh: Shape, d: Dec, tc: ToolPart)
    requires Agrees(d, sh) && d.started
    ensures Keeps(sh, ToolStep(d, tc).0, ToolStep(d, tc).1)
  {
    if tc.index in d.tools {
      ArgsKeep(sh, d, d.tools[tc.index], tc.arguments);
    } else {
      var (closed, stops) := CloseText(d);
      var start := ToolStart(d.next, tc.id, tc.name);
      CloseTextKeeps(sh, d);
      var sh1 := FeedAll(sh, stops).value;
      OpenToolKeeps(sh1, closed, tc);
      FeedOne(sh1, start);
      FeedConcat(sh, stops, [start]);
      ArgsKeep(Feed(sh1, start).value, ToolStep(d, tc).0, d.next, tc.arguments);
      KeepsBoth(sh, stops + [start], ToolStep(d, tc).0, ArgsEvents(d.next, tc.arguments));
    }
  }

  lemma {:induction false} ToolsKeep(sh: Shape, d: Dec, tcs: seq<ToolPart>)
    requires Agrees(d, sh) && d.started
    ensures Keeps(sh, ToolSteps(d, tcs).0, ToolSteps(d, tcs).1) && ToolSteps(d, tcs).0.started
    decreases |tcs|
  {
    if tcs != [] {
      var (d1, first) := ToolStep(d, tcs[0]);
      ToolKeeps(sh, d, tcs[0]);
      ToolsKeep(FeedAll(sh, first).value, d1, tcs[1..]);
      KeepsBoth(sh, first, ToolSteps(d, tcs).0, ToolSteps(d1, tcs[1..]).1);
    }
  }

  lemma DeltaKeeps(sh: Shape, d: Dec, delta: Option<WireDelta>)
    requires Agrees(d, sh) && d.started
    ensures Keeps(sh, DeltaStep(d, delta).0, DeltaStep(d, delta).1) && DeltaStep(d, delta).0.started
  {
    var (d1, text) := TextStep(d, DeltaText(delta));
    TextKeeps(sh, d, DeltaText(delta));
    ToolsKeep(FeedAll(sh, text).value, d1, DeltaTools(delta));
    KeepsBoth(sh, text, DeltaStep(d, delta).0, ToolSteps(d1, DeltaTools(delta)).1);
  }

  /** Stopping the open tool calls one by one, in any order, leaves nothing open. */
  lemma {:induction false} StopsKeep(sh: Shape, order: seq<int>, tools: map<int, nat>)
    requires !sh.ended && (forall i, j | 0 <= i < j < |order| :: order[i] != order[j])
    requires forall k | k in order :: k in tools && tools[k] in sh.open
    requires forall b | b in sh.open :: exists k :: k in order && tools[k] == b
    requires forall i, j | i in tools && j in tools && tools[i] == tools[j] :: i == j
    ensures FeedAll(sh, Stops(order, tools)) == Some(sh.(open := map[]))
    decreases |order|
  {
    var events := Stops(order, tools);
    if order == [] {
      assert events == [];
      if sh.open.Keys != {} {
        var b := Member(sh.open.Keys);
      }
    } else {
      var k, rest := order[0], order[1..];
      var sh1 := sh.(open := sh.open - {tools[k]});
      assert k in order;
      assert events == [Stop(tools[k])] + Stops(rest, tools);
      assert events[1..] == Stops(rest, tools);
      forall j | j in rest ensures j in tools && tools[j] in sh1.open {
        assert j in order && j != k;
      }
      forall b | b in sh1.open ensures exists j :: j in rest && tools[j] == b {
        var j :| j in order && tools[j] == b;
        assert j in rest;
      }
      StopsKeep(sh1, rest, tools);
    }
  }

  lemma CloseAllKeeps(sh: Shape, d: Dec, order: seq<int>)
    requires Agrees(d, sh) && IsOrder(order, d.tools)
    ensures Keeps(sh, CloseAll(d, order).0, CloseAll(d, order).1)
    ensures FeedAll(sh, CloseAll(d, order).1).value.open == map[]
  {
    var (closed, stops) := CloseText(d);
    CloseTextKeeps(sh, d);
    var sh1 := FeedAll(sh, stops).value;
    StopsKeep(sh1, order, d.tools);
    FeedConcat(sh, stops, Stops(order, d.tools));
  }

  lemma StartKeeps(sh: Shape, d: Dec)
    requires Agrees(d, sh)
    ensures Keeps(sh, Start(d).0, Start(d).1) && Start(d).0.started
  {
    if !d.started { FeedOne(sh, Bare(MessageStart)); }
  }

  lemma FinishKeeps(sh: Shape, d: Dec, finish: string, usage: Option<Usage>, order: seq<int>)
    requires Agrees(d, sh) && d.started && IsOrder(order, d.tools)
    ensures Keeps(sh, CloseAll(d, order).0, CloseAll(d, order).1 + [FinishEvent(finish, usage)])
  {
    var (closed, stops) := CloseAll(d, order);
    CloseAllKeeps(sh, d, order);
    FeedOne(FeedAll(sh, stops).value, FinishEvent(finish, usage));
    KeepsBoth(sh, stops, closed, [FinishEvent(finish, usage)]);
  }

  lemma ChoiceKeeps(sh: Shape, d: Dec, choice: Choice, usage: Option<Usage>, order: seq<int>)
    requires Agrees(d, sh) && d.started && IsOrder(order, DeltaStep(d, choice.delta).0.tools)
    ensures Keeps(sh, ChoiceStep(d, choice, usage, order).0, ChoiceStep(d, choice, usage, order).1)
  {
    var (d1, events) := DeltaStep(d, choice.delta);
    DeltaKeeps(sh, d, choice.delta);
    if choice.finish.Some? {
      var (d2, stops) := CloseAll(d1, order);
      var last := FinishEvent(choice.finish.value, usage);
      FinishKeeps(FeedAll(sh, events).value, d1, choice.finish.value, usage, order);
      KeepsBoth(sh, events, d2, stops + [last]);
      assert events + (stops + [last]) == events + stops + [last];
    }
  }

  lemma ChunkKeeps(sh: Shape, d: Dec, chunk: Chunk, order: seq<int>)
    requires Agrees(d, sh) && IsOrder(order, Closing(d, ChunkRecord(chunk))) && ChunkStep(d, chunk, order).1.Ok?
    ensures Keeps(sh, ChunkStep(d, chunk, order).0, ChunkStep(d, chunk, order).1.value)
  {
    var (d1, start) := Start(d);
    StartKeeps(sh, d);
    var sh1 := FeedAll(sh, start).value;
    if |chunk.choices| == 0 {
      var tail := if chunk.usage.Some? then [Event(MessageDelta, 0, Text, None, NoReason, UsageFromWire(chunk.usage), true)] else [];
      if chunk.usage.Some? { FeedOne(sh1, tail[0]); }
      KeepsBoth(sh, start, d1, tail);
    } else {
      ChoiceKeeps(sh1, d1, chunk.choices[0], UsageFromWire(chunk.usage), order);
      var (d2, events) := ChoiceStep(d1, chunk.choices[0], UsageFromWire(chunk.usage), order);
      KeepsBoth(sh, start, d2, events);
    }
  }

  lemma StepKeeps(sh: Shape, d: Dec, turn: Turn)
    requires Agrees(d, sh) && IsOrder(turn.order, Closing(d, turn.record)) && turn.record != DoneMark
    requires DecodeStep(d, turn.record, turn.order).1.Ok?
    ensures Keeps(sh, DecodeStep(d, turn.record, turn.order).0, DecodeStep(d, turn.record, turn.order).1.value)
  {
    match turn.record
    case Heartbeat => FeedOne(sh, Bare(Ping));
    case ErrorRecord => FeedOne(sh, Bare(ErrorEvent));
    case Blank =>
    case Malformed =>
    case DoneMark =>
    case ChunkRecord(chunk) => ChunkKeeps(sh, d, chunk, turn.order);
  }

  lemma {:induction false} RunKeeps(sh: Shape, d: Dec, turns: seq<Turn>)
    requires Agrees(d, sh) && Ordered(d, turns) && Run(d, turns).Ok? && turns != []
    requires turns[|turns| - 1].record == DoneMark && forall i | 0 <= i < |turns| - 1 :: turns[i].record != DoneMark
    ensures FeedAll(sh, Run(d, turns).value.1).Some? && FeedAll(sh, Run(d, turns).value.1).value.ended
    decreases |turns|
  {
    var (d1, r) := DecodeStep(d, turns[0].record, turns[0].order);
    var later := Run(d1, turns[1..]);
    if |turns| == 1 {
      var stops := CloseAll(d, turns[0].order).1;
      CloseAllKeeps(sh, d, turns[0].order);
      var sh1 := FeedAll(sh, stops).value;
      FeedOne(sh1, Bare(MessageStop));
      FeedConcat(sh, stops, [Bare(MessageStop)]);
      assert later == Ok((d1, [])) && r.value + [] == r.value;
    } else {
      StepKeeps(sh, d, turns[0]);
      var sh1 := FeedAll(sh, r.value).value;
      assert forall i | 0 <= i < |turns[1..]| - 1 :: turns[1..][i] == turns[i + 1];
      RunKeeps(sh1, d1, turns[1..]);
      FeedConcat(sh, r.value, later.value.1);
    }
  }

  /** Every accepted stream that ends with the end mark decodes to a well-bracketed trace that ends with nothing open, in
      whatever order the open tool calls are walked. */
  lemma AcceptedStreamsAreWellBracketed(turns: seq<Turn>)
    requires Ordered(NEW_DECODER, turns) && Run(NEW_DECODER, turns).Ok? && turns != []
    requires turns[|turns| - 1].record == DoneMark && forall i | 0 <= i < |turns| - 1 :: turns[i].record != DoneMark
    ensures var events := Run(NEW_DECODER, turns).value.1;
      && FeedAll(NEW_SHAPE, events).Some? && FeedAll(NEW_SHAPE, events).value.ended
      && forall b :: Count(events, BlockStop, b) == Count(events, BlockStart, b) <= 1
  {
    var events := Run(NEW_DECODER, turns).value.1;
    RunKeeps(NEW_SHAPE, NEW_DECODER, turns);
    EndedIsClosed(NEW_SHAPE, events);
    forall b ensures Count(events, BlockStop, b) == Count(events, BlockStart, b) <= 1 {
      EachBlockStopsOnce(NEW_SHAPE, events, b);
    }
  }

  lemma {:induction false} EndedIsClosed(sh: Shape, events: seq<Event>)
    requires FeedAll(sh, events).Some? && (sh.ended ==> sh.open == map[])
    ensures FeedAll(sh, events).value.ended ==> FeedAll(sh, events).value.open == map[]
    decreases |events|
  {
    if events != [] { EndedIsClosed(Feed(sh, events[0]).value, events[1..]); }
  }

  // ---- the trace says what the chunks carried ----

  /** The events so far say what the records so far carried, and each open tool call stands for the same call. */
  ghost predicate Says(d: Dec, c: Content, k: Carried) {
    && ContentOk(c) && CarriedOk(k) && c.text == k.text && c.calls == k.calls
    && (forall b | b in c.at :: 0 <= b < d.next)
    && (forall i :: i in d.tools <==> i in k.current)
    && (forall i | i in d.tools :: d.tools[i] in c.at && c.at[d.tools[i]] == k.current[i])
  }

  lemma AbsorbOne(c: Content, ev: Event)
    requires ContentOk(c)
    ensures AbsorbAll(c, [ev]) == Absorb(c, ev)
  {
    assert [ev][1..] == [];
  }

  lemma NoArguments(calls: seq<Call>, i: nat)
    requires i < |calls|
    ensures Extend(calls, i, "") == calls
  {
    assert calls[i].arguments + "" == calls[i].arguments;
  }

  lemma SayText(c: Content, b: int, text: string)
    requires ContentOk(c)
    ensures Absorb(c, TextDelta(b, text)) == c.(text := c.text + text)
  {
    if b in c.at { NoArguments(c.calls, c.at[b]); }
  }

  lemma SayArgs(c: Content, b: int, args: string)
    requires ContentOk(c) && b in c.at
    ensures AbsorbAll(c, ArgsEvents(b, args)) == c.(calls := Extend(c.calls, c.at[b], args))
  {
    if args == "" {
      NoArguments(c.calls, c.at[b]);
    } else {
      AbsorbOne(c, ArgsDelta(b, args));
      assert c.text + "" == c.text;
    }
  }

  lemma TextSays(d: Dec, c: Content, k: Carried, text: string)
    requires Says(d, c, k)
    ensures Says(TextStep(d, text).0, AbsorbAll(c, TextStep(d, text).1), k.(text := k.text + text))
  {
    if text == "" {
      assert k.text + "" == k.text;
    } else {
      var start := BlockEvent(BlockStart, d.next, Text, None);
      SayText(c, d.textIdx, text);
      SayText(c, d.next, text);
      AbsorbOne(c, TextDelta(d.textIdx, text));
      AbsorbOne(c, TextDelta(d.next, text));
      AbsorbOne(c, start);
      AbsorbConcat(c, [start], [TextDelta(d.next, text)]);
    }
  }

  lemma CloseTextSays(c: Content, d: Dec)
    requires ContentOk(c)
    ensures AbsorbAll(c, CloseText(d).1) == c
  {
    if d.textOpen { AbsorbOne(c, Stop(d.textIdx)); }
  }

  lemma NewCall(d: Dec, c: Content, k: Carried, tc: ToolPart)
    requires Says(d, c, k) && tc.index !in d.tools
    ensures var c1 := Absorb(c, ToolStart(d.next, tc.id, tc.name));
      && d.next in c1.at
      && Says(d.(tools := d.tools[tc.index := d.next], next := d.next + 1),
              c1.(calls := Extend(c1.calls, c1.at[d.next], tc.arguments)), CarryTool(k, tc))
  {
    var c1 := Absorb(c, ToolStart(d.next, tc.id, tc.name));
    assert "" + tc.arguments == tc.arguments;
    assert Extend(c1.calls, |c.calls|, tc.arguments) == c.calls + [Call(tc.id, tc.name, tc.arguments)];
  }

  lemma ToolSays(d: Dec, c: Content, k: Carried, tc: ToolPart)
    requires Says(d, c, k)
    ensures Says(ToolStep(d, tc).0, AbsorbAll(c, ToolStep(d, tc).1), CarryTool(k, tc))
  {
    if tc.index in d.tools {
      SayArgs(c, d.tools[tc.index], tc.arguments);
    } else {
      var stops, start, args := CloseText(d).1, ToolStart(d.next, tc.id, tc.name), ArgsEvents(d.next, tc.arguments);
      var c1 := Absorb(c, start);
      CloseTextSays(c, d);
      AbsorbOne(c, start);
      AbsorbConcat(c, stops, [start]);
      AbsorbConcat(c, stops + [start], args);
      NewCall(d, c, k, tc);
      SayArgs(c1, d.next, tc.arguments);
    }
  }

  lemma {:induction false} ToolsSay(d: Dec, c: Content, k: Carried, tcs: seq<ToolPart>)
    requires Says(d, c, k)
    ensures Says(ToolSteps(d, tcs).0, AbsorbAll(c, ToolSteps(d, tcs).1), CarryTools(k, tcs))
    decreases |tcs|
  {
    if tcs != [] {
      var (d1, first) := ToolStep(d, tcs[0]);
      ToolSays(d, c, k, tcs[0]);
      ToolsSay(d1, AbsorbAll(c, first), CarryTool(k, tcs[0]), tcs[1..]);
      AbsorbConcat(c, first, ToolSteps(d1, tcs[1..]).1);
    }
  }

  lemma DeltaSays(d: Dec, c: Content, k: Carried, delta: Option<WireDelta>)
    requires Says(d, c, k)
    ensures Says(DeltaStep(d, delta).0, AbsorbAll(c, DeltaStep(d, delta).1),
                 CarryTools(k.(text := k.text + DeltaText(delta)), DeltaTools(delta)))
  {
    var (d1, text) := TextStep(d, DeltaText(delta));
    TextSays(d, c, k, DeltaText(delta));
    ToolsSay(d1, AbsorbAll(c, text), k.(text := k.text + DeltaText(delta)), DeltaTools(delta));
    AbsorbConcat(c, text, ToolSteps(d1, DeltaTools(delta)).1);
  }

  lemma {:induction false} StopsSay(c: Content, events: seq<Event>)
    requires ContentOk(c) && forall i | 0 <= i < |events| :: events[i].delta.None?
    ensures AbsorbAll(c, events) == c
    decreases |events|
  {
    if events != [] { StopsSay(c, events[1..]); }
  }

  lemma CloseAllSays(d: Dec, c: Content, k: Carried, order: seq<int>)
    requires Says(d, c, k)
    ensures Says(CloseAll(d, order).0, AbsorbAll(c, CloseAll(d, order).1), k.(current := map[]))
  {
    StopsSay(c, CloseAll(d, order).1);
  }

  lemma StepSays(d: Dec, c: Content, k: Carried, turn: Turn)
    requires Says(d, c, k) && DecodeStep(d, turn.record, turn.order).1.Ok?
    ensures Says(DecodeStep(d, turn.record, turn.order).0, AbsorbAll(c, DecodeStep(d, turn.record, turn.order).1.value),
                 Carry(k, turn.record))
  {
    match turn.record
    case Heartbeat => StopsSay(c, [Bare(Ping)]);
    case ErrorRecord => StopsSay(c, [Bare(ErrorEvent)]);
    case Blank =>
    case Malformed =>
    case DoneMark =>
      CloseAllSays(d, c, k, turn.order);
      AbsorbConcat(c, CloseAll(d, turn.order).1, [Bare(MessageStop)]);
      StopsSay(c, [Bare(MessageStop)]);
    case ChunkRecord(chunk) =>
      var (d1, start) := Start(d);
      StopsSay(c, start);
      if |chunk.choices| == 0 {
        StopsSay(c, ChunkStep(d, chunk, turn.order).1.value);
      } else {
        ChoiceSays(d1, c, k, chunk.choices[0], UsageFromWire(chunk.usage), turn.order);
        AbsorbConcat(c, start, ChoiceStep(d1, chunk.choices[0], UsageFromWire(chunk.usage), turn.order).1);
      }
  }

  lemma ChoiceSays(d: Dec, c: Content, k: Carried, choice: Choice, usage: Option<Usage>, order: seq<int>)
    requires Says(d, c, k)
    ensures var k1 := CarryTools(k.(text := k.text + DeltaText(choice.delta)), DeltaTools(choice.delta));
      Says(ChoiceStep(d, choice, usage, order).0, AbsorbAll(c, ChoiceStep(d, choice, usage, order).1),
           if choice.finish.Some? then k1.(current := map[]) else k1)
  {
    var (d1, events) := DeltaStep(d, choice.delta);
    DeltaSays(d, c, k, choice.delta);
    if choice.finish.Some? {
      var k1 := CarryTools(k.(text := k.text + DeltaText(choice.delta)), DeltaTools(choice.delta));
      var c1 := AbsorbAll(c, events);
      var stops, last := CloseAll(d1, order).1, [FinishEvent(choice.finish.value, usage)];
      CloseAllSays(d1, c1, k1, order);
      AbsorbConcat(c, events, stops);
      AbsorbConcat(c, events + stops, last);
      StopsSay(AbsorbAll(c1, stops), last);
    }
  }

  lemma {:induction false} RunSays(d: Dec, c: Content, k: Carried, turns: seq<Turn>)
    requires Says(d, c, k) && Run(d, turns).Ok?
    ensures Says(Run(d, turns).value.0, AbsorbAll(c, Run(d, turns).value.1), CarryAll(k, RecordsOf(turns)))
    decreases |turns|
  {
    if turns != [] {
      var (d1, r) := DecodeStep(d, turns[0].record, turns[0].order);
      StepSays(d, c, k, turns[0]);
      RunSays(d1, AbsorbAll(c, r.value), Carry(k, turns[0].record), turns[1..]);
      AbsorbConcat(c, r.value, Run(d1, turns[1..]).value.1);
      assert RecordsOf(turns)[1..] == RecordsOf(turns[1..]);
    }
  }

  /** The events of an accepted stream say exactly what its chunks carry: the text, and the tool calls in order with
      their id, name and concatenated arguments. */
  lemma AcceptedStreamsSayWhatTheyCarry(turns: seq<Turn>)
    requires Run(NEW_DECODER, turns).Ok?
    ensures var said, carried := AbsorbAll(SILENCE, Run(NEW_DECODER, turns).value.1), CarryAll(NOTHING, RecordsOf(turns));
      said.text == carried.text && said.calls == carried.calls
  {
    RunSays(NEW_DECODER, SILENCE, NOTHING, turns);
  }

  // ---- which streams are accepted, and what else they report ----

  /** A record the decoder takes: parsed, and with at most the one choice of a stream for one answer. */
  predicate Acceptable(record: Record) {
    match record
    case Malformed => false
    case ChunkRecord(chunk) => |chunk.choices| == 0 || (|chunk.choices| == 1 && chunk.choices[0].index == 0)
    case _ => true
  }

  lemma {:induction false} AcceptedIff(d: Dec, turns: seq<Turn>)
    ensures Run(d, turns).Ok? <==> forall i | 0 <= i < |turns| :: Acceptable(turns[i].record)
    decreases |turns|
  {
    if turns != [] {
      AcceptedIff(DecodeStep(d, turns[0].record, turns[0].order).0, turns[1..]);
      assert forall i | 0 < i < |turns| :: turns[i] == turns[1..][i - 1];
    }
  }

  /** Everything a trace says beside its blocks. */
  datatype Note = Began(usage: Option<Usage>) | Beat | Fault | Ended | Reported(reason: StopReason, usage: Option<Usage>, final: bool)

  function NoteOf(ev: Event): seq<Note> {
    match ev.kind
    case MessageStart => [Began(ev.usage)]
    case Ping => [Beat]
    case ErrorEvent => [Fault]
    case MessageStop => [Ended]
    case MessageDelta => [Reported(ev.stopReason, ev.usage, ev.usageFinal)]
    case _ => []
  }

  function Notes(events: seq<Event>): seq<Note>
    decreases |events|
  {
    if events == [] then [] else NoteOf(events[0]) + Notes(events[1..])
  }

  /** What the records say beside text and tool calls: the first chunk begins the message; a finish reason comes with the
      usage of its chunk; a chunk without choices reports its usage; every usage reported is final. */
  function Noted(began: bool, records: seq<Record>): seq<Note>
    decreases |records|
  {
    if records == [] then []
    else
      var rest := Noted(began || records[0].ChunkRecord?, records[1..]);
      match records[0]
      case Heartbeat => [Beat] + rest
      case ErrorRecord => [Fault] + rest
      case DoneMark => [Ended] + rest
      case ChunkRecord(chunk) => (if began then [] else [Began(None)]) + ChunkNotes(chunk) + rest
      case _ => rest
  }

  function ChunkNotes(chunk: Chunk): seq<Note> {
    var usage := UsageFromWire(chunk.usage);
    if chunk.choices == [] then if chunk.usage.Some? then [Reported(NoReason, usage, true)] else []
    else if chunk.choices[0].finish.Some? then [Reported(FinishToCanonical(chunk.choices[0].finish.value), usage, chunk.usage.Some?)]
    else []
  }

  lemma {:induction false} NotesConcat(a: seq<Event>, b: seq<Event>)
    ensures Notes(a + b) == Notes(a) + Notes(b)
    decreases |a|
  {
    if a == [] {
      assert a + b == b;
    } else {
      assert (a + b)[0] == a[0] && (a + b)[1..] == a[1..] + b;
      NotesConcat(a[1..], b);
    }
  }

  lemma OneNote(ev: Event)
    ensures Notes([ev]) == NoteOf(ev)
  {
    assert [ev][1..] == [] && NoteOf(ev) + [] == NoteOf(ev);
  }

  lemma {:induction false} OnlyBlocks(events: seq<Event>)
    requires forall i | 0 <= i < |events| :: events[i].kind in {BlockStart, BlockDelta, BlockStop}
    ensures Notes(events) == []
    decreases |events|
  {
    if events != [] { OnlyBlocks(events[1..]); }
  }

  lemma {:induction false} ToolsAreBlocks(d: Dec, tcs: seq<ToolPart>)
    ensures forall i | 0 <= i < |ToolSteps(d, tcs).1| :: ToolSteps(d, tcs).1[i].kind in {BlockStart, BlockDelta, BlockStop}
    decreases |tcs|
  {
    if tcs != [] { ToolsAreBlocks(ToolStep(d, tcs[0]).0, tcs[1..]); }
  }

  lemma DeltaNotes(d: Dec, delta: Option<WireDelta>)
    ensures Notes(DeltaStep(d, delta).1) == []
  {
    ToolsAreBlocks(TextStep(d, DeltaText(delta)).0, DeltaTools(delta));
    OnlyBlocks(DeltaStep(d, delta).1);
  }

  lemma StopNotes(d: Dec, order: seq<int>)
    ensures Notes(CloseAll(d, order).1) == []
  {
    OnlyBlocks(CloseAll(d, order).1);
  }

  lemma ChoiceNotes(d: Dec, choice: Choice, usage: Option<Usage>, order: seq<int>)
    ensures Notes(ChoiceStep(d, choice, usage, order).1)
      == if choice.finish.Some? then [Reported(FinishToCanonical(choice.finish.value), usage, usage.Some?)] else []
  {
    DeltaNotes(d, choice.delta);
    if choice.finish.Some? {
      var (d1, events) := DeltaStep(d, choice.delta);
      var stops, last := CloseAll(d1, order).1, FinishEvent(choice.finish.value, usage);
      StopNotes(d1, order);
      NotesConcat(events, stops);
      NotesConcat(events + stops, [last]);
      OneNote(last);
      assert [] + [] + NoteOf(last) == NoteOf(last);
    }
  }

  lemma StepNotes(d: Dec, turn: Turn)
    requires DecodeStep(d, turn.record, turn.order).1.Ok?
    ensures var (d1, r) := DecodeStep(d, turn.record, turn.order);
      && d1.started == (d.started || turn.record.ChunkRecord?)
      && Notes(r.value) == Noted(d.started, [turn.record])
  {
    assert [turn.record][1..] == [] && forall b :: Noted(b, []) == [];
    match turn.record
    case Heartbeat => OneNote(Bare(Ping));
    case ErrorRecord => OneNote(Bare(ErrorEvent));
    case Blank =>
    case Malformed =>
    case DoneMark =>
      var stops := CloseAll(d, turn.order).1;
      StopNotes(d, turn.order);
      NotesConcat(stops, [Bare(MessageStop)]);
      OneNote(Bare(MessageStop));
    case ChunkRecord(chunk) => NotesOfChunk(d, chunk, turn.order);
  }

  lemma {:induction false} ToolsKeepStarted(d: Dec, tcs: seq<ToolPart>)
    ensures ToolSteps(d, tcs).0.started == d.started
    decreases |tcs|
  {
    if tcs != [] { ToolsKeepStarted(ToolStep(d, tcs[0]).0, tcs[1..]); }
  }

  lemma NotesOfChunk(d: Dec, chunk: Chunk, order: seq<int>)
    requires ChunkStep(d, chunk, order).1.Ok?
    ensures var (d1, r) := ChunkStep(d, chunk, order);
      d1.started && Notes(r.value) == (if d.started then [] else [Began(None)]) + ChunkNotes(chunk)
  {
    var (d1, start) := Start(d);
    if !d.started { OneNote(Bare(MessageStart)); }
    if |chunk.choices| == 0 {
      var tail := if chunk.usage.Some? then [Event(MessageDelta, 0, Text, None, NoReason, UsageFromWire(chunk.usage), true)] else [];
      if chunk.usage.Some? { OneNote(tail[0]); }
      NotesConcat(start, tail);
    } else {
      var choice := chunk.choices[0];
      ChoiceNotes(d1, choice, UsageFromWire(chunk.usage), order);
      ToolsKeepStarted(TextStep(d1, DeltaText(choice.delta)).0, DeltaTools(choice.delta));
      NotesConcat(start, ChoiceStep(d1, choice, UsageFromWire(chunk.usage), order).1);
    }
  }

  lemma NotedCons(began: bool, record: Record, records: seq<Record>)
    ensures Noted(began, [record] + records) == Noted(began, [record]) + Noted(began || record.ChunkRecord?, records)
  {
    assert ([record] + records)[1..] == records && [record][1..] == [];
  }

  lemma {:induction false} RunNotes(d: Dec, turns: seq<Turn>)
    requires Run(d, turns).Ok?
    ensures Notes(Run(d, turns).value.1) == Noted(d.started, RecordsOf(turns))
    decreases |turns|
  {
    if turns != [] {
      var (d1, r) := DecodeStep(d, turns[0].record, turns[0].order);
      StepNotes(d, turns[0]);
      RunNotes(d1, turns[1..]);
      NotesConcat(r.value, Run(d1, turns[1..]).value.1);
      NotedCons(d.started, turns[0].record, RecordsOf(turns[1..]));
    }
  }

  /** A stream is accepted exactly when each record is, and then its trace reports, in order, the beginning, the heartbeats,
      the finish reasons, the usages, the errors and the ends that its records carry. */
  lemma AcceptedStreamsReport(turns: seq<Turn>)
    ensures Run(NEW_DECODER, turns).Ok? <==> forall i | 0 <= i < |turns| :: Acceptable(turns[i].record)
    ensures Run(NEW_DECODER, turns).Ok? ==> Notes(Run(NEW_DECODER, turns).value.1) == Noted(false, RecordsOf(turns))
  {
    AcceptedIff(NEW_DECODER, turns);
    if Run(NEW_DECODER, turns).Ok? { RunNotes(NEW_DECODER, turns); }
  }
}
