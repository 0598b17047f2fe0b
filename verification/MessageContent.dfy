/** What message lists say on the two sides of the OpenAI format, and that neither reading nor writing changes it. */
module MessageContent {
  import opened Int64
  import opened Images
  import opened Messages

  /** Everything a list of messages carries, in order: the text of each role, the images, the tool calls and their results. */
  datatype Digest = Digest(system: string, developer: string, user: string, assistant: string, images: seq<string>,
                           calls: seq<(string, string, string)>, results: seq<(string, string)>)

  const EMPTY := Digest("", "", "", "", [], [], [])

  function Both(a: Digest, b: Digest): Digest {
    Digest(a.system + b.system, a.developer + b.developer, a.user + b.user, a.assistant + b.assistant,
           a.images + b.images, a.calls + b.calls, a.results + b.results)
  }

  lemma BothAssoc(a: Digest, b: Digest, c: Digest)
    ensures Both(Both(a, b), c) == Both(a, Both(b, c)) && Both(EMPTY, a) == a && Both(a, EMPTY) == a
  {
    assert (a.system + b.system) + c.system == a.system + (b.system + c.system);
    assert (a.developer + b.developer) + c.developer == a.developer + (b.developer + c.developer);
    assert (a.user + b.user) + c.user == a.user + (b.user + c.user);
    assert (a.assistant + b.assistant) + c.assistant == a.assistant + (b.assistant + c.assistant);
    assert (a.images + b.images) + c.images == a.images + (b.images + c.images);
    assert (a.calls + b.calls) + c.calls == a.calls + (b.calls + c.calls);
    assert (a.results + b.results) + c.results == a.results + (b.results + c.results);
  }

  function Spoken(role: Role, text: string): Digest {
    match role
    case System => EMPTY.(system := text)
    case Developer => EMPTY.(developer := text)
    case User => EMPTY.(user := text)
    case Assistant => EMPTY.(assistant := text)
  }

  lemma SpokenTwice(role: Role, a: string, b: string)
    ensures Both(Spoken(role, a), Spoken(role, b)) == Spoken(role, a + b) && Spoken(role, "") == EMPTY
  {
  }

  // ---- canonical messages ----

  function TextIn(blocks: seq<Block>): string {
    if blocks == [] then "" else (if blocks[0].TextBlock? then blocks[0].text else "") + TextIn(blocks[1..])
  }

  /** What a block says in a message of this role; images and results belong to users, calls to assistants, and thinking has
      no place in the format. */
  function OfBlock(role: Role, b: Block): Digest {
    match b
    case TextBlock(text) => Spoken(role, text)
    case ImageBlock(source) => if role == User && source.Some? then EMPTY.(images := [ImageUrl(source.value)]) else EMPTY
    case ThinkingBlock(_) => EMPTY
    case ToolUse(id, name, input) =>
      if role == Assistant then EMPTY.(calls := [(id, name, if input.Some? then input.value else "{}")]) else EMPTY
    case ToolResult(id, result, _) => if role == User then EMPTY.(results := [(id, TextIn(result))]) else EMPTY
  }

  function OfBlocks(role: Role, blocks: seq<Block>): Digest {
    if blocks == [] then EMPTY else Both(OfBlocks(role, blocks[..|blocks| - 1]), OfBlock(role, blocks[|blocks| - 1]))
  }

  function OfMsgs(messages: seq<Msg>): Digest {
    if messages == [] then EMPTY
    else
      var last := messages[|messages| - 1];
      Both(OfMsgs(messages[..|messages| - 1]), OfBlocks(last.role, last.content))
  }

  // ---- messages on the wire ----

  function OfPart(role: Role, p: WirePart): Digest {
    if p.kind == "text" then Spoken(role, p.text)
    else if p.kind == "image_url" && p.url.Some? && role == User then EMPTY.(images := [p.url.value])
    else EMPTY
  }

  function OfParts(role: Role, parts: seq<WirePart>): Digest {
    if parts == [] then EMPTY else Both(OfParts(role, parts[..|parts| - 1]), OfPart(role, parts[|parts| - 1]))
  }

  function OfContent(role: Role, content: WireContent): Digest {
    match content
    case Str(text) => Spoken(role, text)
    case Array(parts) => OfParts(role, parts)
    case _ => EMPTY
  }

  function OfCalls(calls: seq<WireCall>): Digest {
    EMPTY.(calls := seq(|calls|, i requires 0 <= i < |calls| => (calls[i].id, calls[i].name, calls[i].arguments)))
  }

  /** A tool message answers a call with the text of its content. */
  function OfWire(m: WireMessage): Digest {
    if m.role == "system" then OfContent(System, m.content)
    else if m.role == "developer" then OfContent(Developer, m.content)
    else if m.role == "user" then OfContent(User, m.content)
    else if m.role == "assistant" then Both(OfContent(Assistant, m.content), OfCalls(m.toolCalls))
    else EMPTY.(results := [(m.toolCallId, OfContent(Assistant, m.content).assistant)])
  }

  function OfWires(list: seq<WireMessage>): Digest
    decreases |list|
  {
    if list == [] then EMPTY else Both(OfWire(list[0]), OfWires(list[1..]))
  }

  // ---- reading ----

  /** Images are read into their parts and written back from them. */
  function Reread(d: Digest): Digest {
    d.(images := seq(|d.images|, i requires 0 <= i < |d.images| => ImageUrl(ParseImageUrl(d.images[i]))))
  }

  lemma RereadBoth(a: Digest, b: Digest)
    ensures Reread(Both(a, b)) == Both(Reread(a), Reread(b))
  {
    assert Reread(Both(a, b)).images == Reread(a).images + Reread(b).images;
  }

  lemma BlocksSnoc(role: Role, blocks: seq<Block>, b: Block)
    ensures OfBlocks(role, blocks + [b]) == Both(OfBlocks(role, blocks), OfBlock(role, b))
  {
    assert (blocks + [b])[..|blocks|] == blocks;
  }

  lemma OneBlock(role: Role, b: Block)
    ensures OfBlocks(role, [b]) == OfBlock(role, b)
  {
    assert [] + [b] == [b];
    BlocksSnoc(role, [], b);
    BothAssoc(OfBlock(role, b), EMPTY, EMPTY);
  }

  lemma MsgsSnoc(messages: seq<Msg>, m: Msg)
    ensures OfMsgs(messages + [m]) == Both(OfMsgs(messages), OfBlocks(m.role, m.content))
  {
    assert (messages + [m])[..|messages|] == messages;
  }

  lemma {:induction false} PartsAreSpoken(parts: seq<WirePart>, role: Role)
    requires role != User
    ensures OfParts(role, parts) == Spoken(role, PartsText(parts))
    decreases |parts|
  {
    if parts == [] {
      SpokenTwice(role, "", "");
    } else {
      var front, last := parts[..|parts| - 1], parts[|parts| - 1];
      assert parts == front + [last];
      PartsAreSpoken(front, role);
      PartsTextSnoc(front, last);
      SpokenTwice(role, PartsText(front), if last.kind == "text" then last.text else "");
    }
  }

  lemma {:induction false} PartsTextSnoc(parts: seq<WirePart>, p: WirePart)
    ensures PartsText(parts + [p]) == PartsText(parts) + if p.kind == "text" then p.text else ""
  {
    if parts == [] {
      assert [] + [p] == [p] && [p][1..] == [];
    } else {
      PartsTextSnoc(parts[1..], p);
      assert (parts + [p])[1..] == parts[1..] + [p];
    }
  }

  lemma ContentIsSpoken(content: WireContent, role: Role)
    requires role != User && ContentText(content).Ok?
    ensures OfContent(role, content) == Spoken(role, ContentText(content).value)
  {
    if content.Array? { PartsAreSpoken(content.parts, role); } else { SpokenTwice(role, "", ""); }
  }

  lemma TextOnlySays(role: Role, text: string)
    ensures OfBlocks(role, TextOnly(text)) == Spoken(role, text)
  {
    SpokenTwice(role, "", "");
    if text != "" { OneBlock(role, TextBlock(text)); }
  }

  lemma PartBlockSays(p: WirePart)
    ensures OfBlocks(User, PartBlock(p)) == Reread(OfPart(User, p))
  {
    if PartBlock(p) != [] { OneBlock(User, PartBlock(p)[0]); }
  }

  lemma {:induction false} BlocksAcross(role: Role, a: seq<Block>, b: seq<Block>)
    ensures OfBlocks(role, a + b) == Both(OfBlocks(role, a), OfBlocks(role, b))
    decreases |b|
  {
    if b == [] {
      assert a + b == a;
      BothAssoc(OfBlocks(role, a), EMPTY, EMPTY);
    } else {
      var front, last := b[..|b| - 1], b[|b| - 1];
      assert a + b == (a + front) + [last];
      BlocksAcross(role, a, front);
      BlocksSnoc(role, a + front, last);
      BothAssoc(OfBlocks(role, a), OfBlocks(role, front), OfBlock(role, last));
    }
  }

  lemma {:induction false} PartBlocksSay(parts: seq<WirePart>)
    ensures OfBlocks(User, PartBlocks(parts)) == Reread(OfParts(User, parts))
    decreases |parts|
  {
    if parts != [] {
      var front, last := parts[..|parts| - 1], parts[|parts| - 1];
      PartBlocksSay(front);
      PartBlockSays(last);
      BlocksAcross(User, PartBlocks(front), PartBlock(last));
      RereadBoth(OfParts(User, front), OfPart(User, last));
    }
  }

  lemma {:induction false} CallsSay(calls: seq<WireCall>)
    ensures OfBlocks(Assistant, CallBlocks(calls)) == OfCalls(calls)
    decreases |calls|
  {
    if calls == [] {
      assert CallBlocks(calls) == [] && OfCalls(calls) == EMPTY;
    } else {
      var front, last := calls[..|calls| - 1], calls[|calls| - 1];
      CallsSay(front);
      assert CallBlocks(calls) == CallBlocks(front) + [ToolUse(last.id, last.name, Some(last.arguments))];
      BlocksSnoc(Assistant, CallBlocks(front), ToolUse(last.id, last.name, Some(last.arguments)));
      assert OfCalls(calls).calls == OfCalls(front).calls + [(last.id, last.name, last.arguments)];
    }
  }

  lemma {:induction false} AmendSays(out: seq<Msg>, b: Block)
    requires LastIsUser(out)
    ensures OfMsgs(Amend(out, b)) == Both(OfMsgs(out), OfBlock(User, b))
  {
    var n := |out| - 1;
    var more := out[n].(content := out[n].content + [b]);
    assert Amend(out, b) == out[..n] + [more] && out == out[..n] + [out[n]];
    MsgsSnoc(out[..n], more);
    MsgsSnoc(out[..n], out[n]);
    BlocksSnoc(User, out[n].content, b);
    BothAssoc(OfMsgs(out[..n]), OfBlocks(User, out[n].content), OfBlock(User, b));
  }

  lemma ResultSays(out: seq<Msg>, m: WireMessage)
    requires m.role == "tool" && ContentText(m.content).Ok?
    ensures OfMsgs(AddResult(out, ToolResult(m.toolCallId, [TextBlock(ContentText(m.content).value)], false)))
         == Both(OfMsgs(out), Reread(OfWire(m)))
  {
    var text := ContentText(m.content).value;
    var b := ToolResult(m.toolCallId, [TextBlock(text)], false);
    ContentIsSpoken(m.content, Assistant);
    assert [TextBlock(text)][1..] == [] && TextIn([TextBlock(text)]) == text + "" == text;
    assert Reread(OfWire(m)) == OfBlock(User, b);
    if LastIsUser(out) {
      AmendSays(out, b);
    } else {
      MsgsSnoc(out, Msg(User, [b]));
      OneBlock(User, b);
    }
  }

  lemma StepSays(out: seq<Msg>, m: WireMessage)
    requires ParseStep(out, m).Ok?
    ensures OfMsgs(ParseStep(out, m).value) == Both(OfMsgs(out), Reread(OfWire(m)))
  {
    var next := ParseStep(out, m).value;
    if m.role == "tool" {
      ResultSays(out, m);
    } else {
      var last := next[|next| - 1];
      assert next == out + [last];
      MsgsSnoc(out, last);
      MessageSays(out, m, last);
    }
  }

  lemma InstructionRead(m: WireMessage, role: Role)
    requires m.role in {"system", "developer"} && role == (if m.role == "developer" then Developer else System)
    requires ContentText(m.content).Ok?
    ensures OfBlocks(role, TextOnly(ContentText(m.content).value)) == Reread(OfWire(m))
  {
    ContentIsSpoken(m.content, role);
    TextOnlySays(role, ContentText(m.content).value);
  }

  lemma UserRead(m: WireMessage)
    requires m.role == "user" && UserBlocks(m.content).Ok?
    ensures OfBlocks(User, UserBlocks(m.content).value) == Reread(OfWire(m))
  {
    assert |"user"| != |"system"| && |"user"| != |"developer"|;
    if m.content.Array? { PartBlocksSay(m.content.parts); } else { OneBlock(User, TextBlock(m.content.text)); }
  }

  lemma AssistantRead(m: WireMessage)
    requires m.role == "assistant" && ContentText(m.content).Ok?
    ensures OfBlocks(Assistant, TextOnly(ContentText(m.content).value) + CallBlocks(m.toolCalls)) == Reread(OfWire(m))
  {
    var text := ContentText(m.content).value;
    ContentIsSpoken(m.content, Assistant);
    TextOnlySays(Assistant, text);
    CallsSay(m.toolCalls);
    BlocksAcross(Assistant, TextOnly(text), CallBlocks(m.toolCalls));
    WithoutImages(Both(Spoken(Assistant, text), OfCalls(m.toolCalls)));
  }

  lemma WithoutImages(d: Digest)
    requires d.images == []
    ensures Reread(d) == d
  {
  }

  lemma MessageSays(out: seq<Msg>, m: WireMessage, last: Msg)
    requires m.role != "tool" && ParseStep(out, m) == Ok(out + [last])
    ensures OfBlocks(last.role, last.content) == Reread(OfWire(m))
  {
    assert (out + [last])[|out|] == last;
    if m.role in {"system", "developer"} {
      var role := if m.role == "developer" then Developer else System;
      assert ParseStep(out, m).value[|out|] == Msg(role, TextOnly(ContentText(m.content).value));
      InstructionRead(m, role);
    } else if m.role == "user" {
      assert ParseStep(out, m).value[|out|] == Msg(User, UserBlocks(m.content).value);
      UserRead(m);
    } else {
      assert ParseStep(out, m).value[|out|] == Msg(Assistant, TextOnly(ContentText(m.content).value) + CallBlocks(m.toolCalls));
      AssistantRead(m);
    }
  }

  lemma {:induction false} ParsedSays(out: seq<Msg>, list: seq<WireMessage>)
    requires ParseFrom(out, list).Ok?
    ensures OfMsgs(ParseFrom(out, list).value) == Both(OfMsgs(out), Reread(OfWires(list)))
    decreases |list|
  {
    if list == [] {
      BothAssoc(OfMsgs(out), EMPTY, EMPTY);
      assert Reread(EMPTY) == EMPTY;
    } else {
      StepSays(out, list[0]);
      ParsedSays(ParseStep(out, list[0]).value, list[1..]);
      RereadBoth(OfWire(list[0]), OfWires(list[1..]));
      BothAssoc(OfMsgs(out), Reread(OfWire(list[0])), Reread(OfWires(list[1..])));
    }
  }

  // ---- which lists are refused ----

  function Refusal(m: WireMessage): Option<ParseError> {
    if m.role !in {"system", "developer", "user", "assistant", "tool"} then Some(UnknownRole)
    else if m.content.Other? || (m.role == "user" && m.content.Missing?) then Some(BadContent)
    else None
  }

  function FirstRefusal(list: seq<WireMessage>): Option<ParseError>
    decreases |list|
  {
    if list == [] then None else if Refusal(list[0]).Some? then Refusal(list[0]) else FirstRefusal(list[1..])
  }

  lemma StepRefuses(out: seq<Msg>, m: WireMessage)
    ensures match Refusal(m) case Some(e) => ParseStep(out, m) == Err(e) case None => ParseStep(out, m).Ok?
  {
  }

  lemma {:induction false} RefusesFirst(out: seq<Msg>, list: seq<WireMessage>)
    ensures match FirstRefusal(list) case Some(e) => ParseFrom(out, list) == Err(e) case None => ParseFrom(out, list).Ok?
    decreases |list|
  {
    if list != [] {
      StepRefuses(out, list[0]);
      if Refusal(list[0]).None? { RefusesFirst(ParseStep(out, list[0]).value, list[1..]); }
    }
  }

  /** A list is refused for its first message of an unknown role or without usable content, and otherwise read without loss:
      the texts of every role, the images, the calls with their arguments and the results are those on the wire. */
  lemma ParsingKeepsContent(list: seq<WireMessage>)
    ensures match FirstRefusal(list)
      case Some(e) => ParseFrom([], list) == Err(e)
      case None => ParseFrom([], list).Ok? && OfMsgs(ParseFrom([], list).value) == Reread(OfWires(list))
  {
    RefusesFirst([], list);
    if FirstRefusal(list).None? {
      ParsedSays([], list);
      BothAssoc(Reread(OfWires(list)), EMPTY, EMPTY);
    }
  }

  // ---- writing ----

  lemma {:induction false} TextInSnoc(blocks: seq<Block>, b: Block)
    ensures TextIn(blocks + [b]) == TextIn(blocks) + if b.TextBlock? then b.text else ""
  {
    if blocks == [] {
      assert [] + [b] == [b] && [b][1..] == [];
    } else {
      var first := if blocks[0].TextBlock? then blocks[0].text else "";
      var last := if b.TextBlock? then b.text else "";
      TextInSnoc(blocks[1..], b);
      assert (blocks + [b])[1..] == blocks[1..] + [b] && (blocks + [b])[0] == blocks[0];
      assert first + (TextIn(blocks[1..]) + last) == (first + TextIn(blocks[1..])) + last;
    }
  }

  lemma {:induction false} BlocksTextIs(blocks: seq<Block>)
    ensures BlocksText(blocks) == TextIn(blocks)
  {
    if blocks != [] {
      var front, last := blocks[..|blocks| - 1], blocks[|blocks| - 1];
      BlocksTextIs(front);
      TextInSnoc(front, last);
      assert blocks == front + [last];
    }
  }

  lemma {:induction false} WiresAcross(a: seq<WireMessage>, b: seq<WireMessage>)
    ensures OfWires(a + b) == Both(OfWires(a), OfWires(b))
    decreases |a|
  {
    if a == [] {
      assert a + b == b;
      BothAssoc(OfWires(b), EMPTY, EMPTY);
    } else {
      assert (a + b)[0] == a[0] && (a + b)[1..] == a[1..] + b;
      WiresAcross(a[1..], b);
      BothAssoc(OfWire(a[0]), OfWires(a[1..]), OfWires(b));
    }
  }

  lemma OneWire(m: WireMessage)
    ensures OfWires([m]) == OfWire(m)
  {
    assert [m][1..] == [];
    BothAssoc(OfWire(m), EMPTY, EMPTY);
  }

  lemma {:induction false} PartsSnoc(parts: seq<WirePart>, p: WirePart)
    ensures OfParts(User, parts + [p]) == Both(OfParts(User, parts), OfPart(User, p))
  {
    assert (parts + [p])[..|parts|] == parts;
  }

  /** The two halves of a user message: its parts, and its results. */
  lemma {:induction false} UserHalves(blocks: seq<Block>)
    ensures Both(OfParts(User, PartsOf(blocks)), OfWires(ResultsOf(blocks))) == OfBlocks(User, blocks)
    ensures OfParts(User, PartsOf(blocks)).results == [] && OfParts(User, PartsOf(blocks)).calls == []
    ensures IsResults(OfWires(ResultsOf(blocks)))
    decreases |blocks|
  {
    if blocks != [] {
      var front, b := blocks[..|blocks| - 1], blocks[|blocks| - 1];
      UserHalves(front);
      HalvesStep(front, b);
    }
  }

  /** Results and parts may be told in either order. */
  lemma PastResults(parts: Digest, more: Digest, results: seq<(string, string)>)
    requires more.results == []
    ensures Both(Both(parts, more), EMPTY.(results := results)) == Both(Both(parts, EMPTY.(results := results)), more)
  {
    assert parts.results + results + [] == parts.results + [] + results;
  }

  lemma OnePart(p: WirePart)
    ensures OfParts(User, [p]) == OfPart(User, p)
  {
    assert [p] == [] + [p];
    PartsSnoc([], p);
    BothAssoc(OfPart(User, p), EMPTY, EMPTY);
  }

  predicate IsPart(b: Block) { b.TextBlock? || b.ImageBlock? }

  lemma PartHalf(b: Block)
    requires IsPart(b)
    ensures ResultMessage(b) == [] && OfParts(User, BlockPart(b)) == OfBlock(User, b)
    ensures OfBlock(User, b).results == [] && OfBlock(User, b).calls == []
  {
    if BlockPart(b) != [] {
      OnePart(BlockPart(b)[0]);
      assert |"image_url"| != |"text"|;
    }
  }

  lemma ResultHalf(b: Block)
    requires !IsPart(b)
    ensures BlockPart(b) == [] && OfWires(ResultMessage(b)) == OfBlock(User, b) && IsResults(OfBlock(User, b))
  {
    if b.ToolResult? {
      OneWire(ResultMessage(b)[0]);
      BlocksTextIs(b.result);
      ResultWire(b);
    }
  }

  lemma ResultWire(b: Block)
    requires b.ToolResult?
    ensures OfWire(ResultMessage(b)[0]) == EMPTY.(results := [(b.id, BlocksText(b.result))])
  {
  }

  lemma {:induction false} PartsAcross(a: seq<WirePart>, b: seq<WirePart>)
    requires |b| <= 1
    ensures OfParts(User, a + b) == Both(OfParts(User, a), OfParts(User, b))
  {
    if b == [] {
      assert a + b == a;
      BothAssoc(OfParts(User, a), EMPTY, EMPTY);
    } else {
      assert b == [] + [b[0]];
      PartsSnoc(a, b[0]);
      PartsSnoc([], b[0]);
      BothAssoc(OfPart(User, b[0]), EMPTY, EMPTY);
    }
  }

  predicate IsResults(d: Digest) { d == EMPTY.(results := d.results) }

  lemma HalvesStep(front: seq<Block>, b: Block)
    requires var p, r := OfParts(User, PartsOf(front)), OfWires(ResultsOf(front));
      Both(p, r) == OfBlocks(User, front) && p.results == [] && p.calls == [] && IsResults(r)
    ensures var p, r := OfParts(User, PartsOf(front) + BlockPart(b)), OfWires(ResultsOf(front) + ResultMessage(b));
      Both(p, r) == Both(OfBlocks(User, front), OfBlock(User, b)) && p.results == [] && p.calls == [] && IsResults(r)
  {
    if IsPart(b) { PartHalf(b); } else { ResultHalf(b); }
    PartsAcross(PartsOf(front), BlockPart(b));
    WiresAcross(ResultsOf(front), ResultMessage(b));
    JoinHalves(OfParts(User, PartsOf(front)), OfWires(ResultsOf(front)), OfParts(User, BlockPart(b)), OfWires(ResultMessage(b)));
  }

  lemma JoinHalves(p: Digest, r: Digest, moreParts: Digest, moreResults: Digest)
    requires p.results == [] && p.calls == [] && IsResults(r)
    requires moreParts.results == [] && moreParts.calls == [] && IsResults(moreResults)
    requires moreParts == EMPTY || moreResults == EMPTY
    ensures Both(Both(p, moreParts), Both(r, moreResults)) == Both(Both(p, r), Both(moreParts, moreResults))
    ensures Both(p, moreParts).results == [] && Both(p, moreParts).calls == [] && IsResults(Both(r, moreResults))
    ensures moreParts == EMPTY ==> Both(moreParts, moreResults) == moreResults
    ensures moreResults == EMPTY ==> Both(moreParts, moreResults) == moreParts
  {
    BothAssoc(moreParts, EMPTY, EMPTY);
    BothAssoc(moreResults, EMPTY, EMPTY);
    BothAssoc(p, r, moreResults);
    BothAssoc(p, EMPTY, EMPTY);
    BothAssoc(r, EMPTY, EMPTY);
    if moreResults == EMPTY { PastResults(p, moreParts, r.results); }
  }

  lemma UserMessageSays(parts: seq<WirePart>)
    ensures OfWire(UserMessage(parts)) == OfParts(User, parts)
  {
    assert |"user"| != |"system"| && |"user"| != |"developer"|;
    if |parts| == 1 {
      assert parts == [] + [parts[0]];
      PartsSnoc([], parts[0]);
      BothAssoc(OfPart(User, parts[0]), EMPTY, EMPTY);
    }
  }

  lemma UserSays(blocks: seq<Block>)
    ensures OfWires(BuildUser(blocks)) == OfBlocks(User, blocks)
  {
    UserHalves(blocks);
    if PartsOf(blocks) == [] {
      assert BuildUser(blocks) == ResultsOf(blocks);
      BothAssoc(OfWires(ResultsOf(blocks)), EMPTY, EMPTY);
    } else {
      WiresAcross([UserMessage(PartsOf(blocks))], ResultsOf(blocks));
      OneWire(UserMessage(PartsOf(blocks)));
      UserMessageSays(PartsOf(blocks));
    }
  }

  lemma CallsSnoc(calls: seq<WireCall>, c: WireCall)
    ensures OfCalls(calls + [c]) == Both(OfCalls(calls), OfCalls([c])) && OfCalls([c]) == EMPTY.(calls := [(c.id, c.name, c.arguments)])
    ensures OfCalls([]) == EMPTY
  {
    assert OfCalls(calls + [c]).calls == OfCalls(calls).calls + [(c.id, c.name, c.arguments)];
  }

  lemma {:induction false} AssistantHalves(blocks: seq<Block>)
    ensures Both(Spoken(Assistant, BlocksText(blocks)), OfCalls(CallsOf(blocks))) == OfBlocks(Assistant, blocks)
    decreases |blocks|
  {
    if blocks == [] {
      CallsSnoc([], WireCall("", "", ""));
    } else {
      var front, b := blocks[..|blocks| - 1], blocks[|blocks| - 1];
      AssistantHalves(front);
      AssistantStep(front, b);
    }
  }

  lemma AssistantStep(front: seq<Block>, b: Block)
    ensures Both(Spoken(Assistant, BlocksText(front) + if b.TextBlock? then b.text else ""), OfCalls(CallsOf(front) + BlockCall(b)))
         == Both(Both(Spoken(Assistant, BlocksText(front)), OfCalls(CallsOf(front))), OfBlock(Assistant, b))
  {
    var said, calls := BlocksText(front), OfCalls(CallsOf(front));
    if b.ToolUse? {
      CallsSnoc(CallsOf(front), BlockCall(b)[0]);
      assert BlockCall(b) == [BlockCall(b)[0]] && said + "" == said;
      BothAssoc(Spoken(Assistant, said), calls, OfBlock(Assistant, b));
    } else {
      assert CallsOf(front) + [] == CallsOf(front) && said + "" == said;
      BothAssoc(Both(Spoken(Assistant, said), calls), EMPTY, EMPTY);
      if b.TextBlock? { SaidAndCalled(said, b.text, calls.calls); }
    }
  }

  lemma SaidAndCalled(said: string, more: string, calls: seq<(string, string, string)>)
    ensures Both(Spoken(Assistant, said + more), EMPTY.(calls := calls))
         == Both(Both(Spoken(Assistant, said), EMPTY.(calls := calls)), Spoken(Assistant, more))
  {
    var c := EMPTY.(calls := calls);
    assert (said + more) + c.assistant == said + more;
    assert (said + c.assistant) + more == said + more;
  }

  lemma AssistantSays(blocks: seq<Block>)
    ensures OfWire(BuildAssistant(blocks)) == OfBlocks(Assistant, blocks)
  {
    AssistantHalves(blocks);
    SpokenTwice(Assistant, "", "");
  }

  lemma {:induction false} InstructionSays(role: Role, blocks: seq<Block>)
    requires AllText(blocks)
    ensures OfBlocks(role, blocks) == Spoken(role, BlocksText(blocks))
    decreases |blocks|
  {
    if blocks == [] {
      SpokenTwice(role, "", "");
    } else {
      var front, b := blocks[..|blocks| - 1], blocks[|blocks| - 1];
      InstructionSays(role, front);
      SpokenTwice(role, BlocksText(front), b.text);
    }
  }

  lemma BuiltSays(m: Msg)
    requires BuildOne(m).Ok?
    ensures OfWires(BuildOne(m).value) == OfBlocks(m.role, m.content)
  {
    match m.role
    case User => UserSays(m.content);
    case Assistant =>
      AssistantSays(m.content);
      OneWire(BuildAssistant(m.content));
    case _ =>
      InstructionSays(m.role, m.content);
      OneWire(BuildOne(m).value[0]);
  }

  lemma {:induction false} AllBuiltSay(messages: seq<Msg>)
    requires BuildAll(messages).Ok?
    ensures OfWires(BuildAll(messages).value) == OfAll(messages)
    decreases |messages|
  {
    if messages != [] {
      BuiltSays(messages[0]);
      AllBuiltSay(messages[1..]);
      WiresAcross(BuildOne(messages[0]).value, BuildAll(messages[1..]).value);
    }
  }

  function OfAll(messages: seq<Msg>): Digest
    decreases |messages|
  {
    if messages == [] then EMPTY else Both(OfBlocks(messages[0].role, messages[0].content), OfAll(messages[1..]))
  }

  lemma {:induction false} AllSnoc(messages: seq<Msg>, m: Msg)
    ensures OfAll(messages + [m]) == Both(OfAll(messages), OfBlocks(m.role, m.content))
    decreases |messages|
  {
    BothAssoc(OfBlocks(m.role, m.content), EMPTY, EMPTY);
    if messages == [] {
      assert messages + [m] == [m] && [m][1..] == [];
    } else {
      AllSnoc(messages[1..], m);
      assert (messages + [m])[1..] == messages[1..] + [m];
      BothAssoc(OfBlocks(messages[0].role, messages[0].content), OfAll(messages[1..]), OfBlocks(m.role, m.content));
    }
  }

  lemma {:induction false} AllIsMsgs(messages: seq<Msg>)
    ensures OfAll(messages) == OfMsgs(messages)
    decreases |messages|
  {
    if messages != [] {
      var front, last := messages[..|messages| - 1], messages[|messages| - 1];
      AllIsMsgs(front);
      AllSnoc(front, last);
      assert messages == front + [last];
    }
  }

  /** The first instruction that is not all text. */
  function FirstMisfit(messages: seq<Msg>): Option<BuildError>
    decreases |messages|
  {
    if messages == [] then None
    else if messages[0].role in {System, Developer} && (exists i | 0 <= i < |messages[0].content| :: !messages[0].content[i].TextBlock?)
    then Some(InstructionNotText(messages[0].role))
    else FirstMisfit(messages[1..])
  }

  lemma {:induction false} MisfitsFirst(messages: seq<Msg>)
    ensures match FirstMisfit(messages) case Some(e) => BuildAll(messages) == Err(e) case None => BuildAll(messages).Ok?
    decreases |messages|
  {
    if messages != [] { MisfitsFirst(messages[1..]); }
  }

  /** A request is refused for its first system or developer message that is not all text, and otherwise written without loss:
      the prompt as a system message in front, then the texts of every role, images, calls and results as they are. */
  lemma BuildingKeepsContent(system: seq<Block>, messages: seq<Msg>)
    ensures match FirstMisfit(messages)
      case Some(e) => BuildAll(messages) == Err(e)
      case None =>
        BuildAll(messages).Ok?
        && OfWires(SystemPrompt(system) + BuildAll(messages).value) == Both(Spoken(System, TextIn(system)), OfMsgs(messages))
        && (TextIn(system) != "" ==> SystemPrompt(system) == [WireMessage("system", Str(TextIn(system)), [], "")])
        && (TextIn(system) == "" ==> SystemPrompt(system) == [])
  {
    MisfitsFirst(messages);
    BlocksTextIs(system);
    SpokenTwice(System, "", "");
    if FirstMisfit(messages).None? {
      AllBuiltSay(messages);
      AllIsMsgs(messages);
      WiresAcross(SystemPrompt(system), BuildAll(messages).value);
      if SystemPrompt(system) != [] { OneWire(SystemPrompt(system)[0]); }
    }
  }

  /** The shape of what is written: a single text part is a plain string, an assistant without text has no content. */
  lemma BuiltShapes(m: Msg)
    requires BuildOne(m).Ok?
    ensures m.role == Assistant ==> |BuildOne(m).value| == 1 && (BuildOne(m).value[0].content.Missing? <==> TextIn(m.content) == "")
    ensures m.role == User && BuildOne(m).value != [] && BuildOne(m).value[0].role == "user" ==>
      (BuildOne(m).value[0].content.Str? <==> |PartsOf(m.content)| == 1 && PartsOf(m.content)[0].kind == "text")
    ensures m.role == User && m.content != [] && (forall i | 0 <= i < |m.content| :: m.content[i].TextBlock?) && |m.content| == 1 ==>
      BuildOne(m).value == [WireMessage("user", Str(m.content[0].text), [], "")]
  {
    BlocksTextIs(m.content);
    if m.role == User && |m.content| == 1 {
      assert m.content[..0] == [] && PartsOf(m.content) == [] + BlockPart(m.content[0]) && ResultsOf(m.content) == [] + ResultMessage(m.content[0]);
    }
    assert |"user"| != |"tool"| || "user" != "tool";
    NoUserAmongResults(m.content);
  }

  lemma {:induction false} NoUserAmongResults(blocks: seq<Block>)
    ensures forall i | 0 <= i < |ResultsOf(blocks)| :: ResultsOf(blocks)[i].role == "tool"
  {
    if blocks != [] { NoUserAmongResults(blocks[..|blocks| - 1]); }
  }
}
