/** Parsing, building and parsing again: when the canonical messages come back. */
module NormalForm {
  import opened Int64
  import opened Images
  import opened Messages

  // ---- what parsing produces ----

  predicate GoodPart(b: Block) {
    match b
    case TextBlock(_) => true
    case ImageBlock(source) => source.Some? && ParseImageUrl(ImageUrl(source.value)) == source.value
    case _ => false
  }

  predicate GoodResult(b: Block) { b.ToolResult? && !b.isError && |b.result| == 1 && b.result[0].TextBlock? }

  /** The user's own parts, then the tool results that were merged in. */
  predicate GoodUser(content: seq<Block>) {
    && (forall i | 0 <= i < |content| :: GoodPart(content[i]) || GoodResult(content[i]))
    && (forall i, j | 0 <= i < j < |content| && content[i].ToolResult? :: content[j].ToolResult?)
  }

  predicate GoodInstruction(content: seq<Block>) {
    content == [] || (|content| == 1 && content[0].TextBlock? && content[0].text != "")
  }

  predicate GoodCalls(content: seq<Block>) { forall i | 0 <= i < |content| :: content[i].ToolUse? && content[i].input.Some? }

  predicate GoodAssistant(content: seq<Block>) {
    if content != [] && content[0].TextBlock? then content[0].text != "" && GoodCalls(content[1..]) else GoodCalls(content)
  }

  predicate Normal(m: Msg) {
    match m.role
    case User => GoodUser(m.content)
    case Assistant => GoodAssistant(m.content)
    case _ => GoodInstruction(m.content)
  }

  ghost predicate AllNormal(messages: seq<Msg>) { forall i | 0 <= i < |messages| :: Normal(messages[i]) }

  lemma {:induction false} PartBlocksAreGood(parts: seq<WirePart>)
    ensures forall i | 0 <= i < |PartBlocks(parts)| :: GoodPart(PartBlocks(parts)[i])
  {
    if parts != [] {
      var last := parts[|parts| - 1];
      PartBlocksAreGood(parts[..|parts| - 1]);
      if last.url.Some? { SourceSurvives(last.url.value); }
    }
  }

  lemma StepIsNormal(out: seq<Msg>, m: WireMessage)
    requires AllNormal(out) && ParseStep(out, m).Ok?
    ensures AllNormal(ParseStep(out, m).value)
  {
    if m.role == "user" && m.content.Array? { PartBlocksAreGood(m.content.parts); }
    if m.role == "assistant" {
      var text := ContentText(m.content).value;
      assert text == "" ==> [] + CallBlocks(m.toolCalls) == CallBlocks(m.toolCalls);
      assert text != "" ==> ([TextBlock(text)] + CallBlocks(m.toolCalls))[1..] == CallBlocks(m.toolCalls);
    }
  }

  lemma {:induction false} ParsedIsNormal(out: seq<Msg>, list: seq<WireMessage>)
    requires AllNormal(out) && ParseFrom(out, list).Ok?
    ensures AllNormal(ParseFrom(out, list).value)
    decreases |list|
  {
    if list != [] {
      StepIsNormal(out, list[0]);
      ParsedIsNormal(ParseStep(out, list[0]).value, list[1..]);
    }
  }

  // ---- parsing what was built ----

  lemma {:induction false} ParseConcat(out: seq<Msg>, a: seq<WireMessage>, b: seq<WireMessage>)
    requires ParseFrom(out, a).Ok?
    ensures ParseFrom(out, a + b) == ParseFrom(ParseFrom(out, a).value, b)
    decreases |a|
  {
    if a == [] {
      assert a + b == b;
    } else {
      assert (a + b)[0] == a[0] && (a + b)[1..] == a[1..] + b;
      ParseConcat(ParseStep(out, a[0]).value, a[1..], b);
    }
  }

  lemma ParseOne(out: seq<Msg>, m: WireMessage)
    ensures ParseFrom(out, [m]) == ParseStep(out, m)
  {
    assert [m][1..] == [];
  }

  /** Tool results that come without a user message of their own. */
  function AddResults(out: seq<Msg>, content: seq<Block>): seq<Msg> {
    if content == [] then out else AddResult(AddResults(out, content[..|content| - 1]), content[|content| - 1])
  }

  lemma BuildSnoc(front: seq<Block>, b: Block)
    ensures PartsOf(front + [b]) == PartsOf(front) + BlockPart(b) && ResultsOf(front + [b]) == ResultsOf(front) + ResultMessage(b)
  {
    assert (front + [b])[..|front|] == front;
  }

  lemma PartBlocksSnoc(front: seq<WirePart>, p: WirePart)
    ensures PartBlocks(front + [p]) == PartBlocks(front) + PartBlock(p)
  {
    assert (front + [p])[..|front|] == front;
  }

  lemma PartBack(b: Block)
    requires GoodPart(b)
    ensures |BlockPart(b)| == 1 && PartBlock(BlockPart(b)[0]) == [b] && ResultMessage(b) == []
  {
    assert |"image_url"| != |"text"|;
  }

  lemma {:induction false} OnlyParts(content: seq<Block>)
    requires forall i | 0 <= i < |content| :: GoodPart(content[i])
    ensures |PartsOf(content)| == |content| && PartBlocks(PartsOf(content)) == content && ResultsOf(content) == []
    decreases |content|
  {
    if content != [] {
      var front, last := content[..|content| - 1], content[|content| - 1];
      assert content == front + [last];
      OnlyParts(front);
      PartBack(last);
      BuildSnoc(front, last);
      PartBlocksSnoc(PartsOf(front), BlockPart(last)[0]);
      assert BlockPart(last) == [BlockPart(last)[0]];
    }
  }

  /** A string stands for its one text part. */
  lemma UserMessageParses(parts: seq<WirePart>)
    ensures UserBlocks(UserMessage(parts).content) == Ok(PartBlocks(parts))
  {
    if |parts| == 1 && parts[0].kind == "text" {
      PartBlocksSnoc([], parts[0]);
      assert [] + [parts[0]] == parts && PartBlocks([]) + PartBlock(parts[0]) == [TextBlock(parts[0].text)];
    }
  }

  lemma PartsMessageBack(out: seq<Msg>, content: seq<Block>)
    requires content != [] && forall i | 0 <= i < |content| :: GoodPart(content[i])
    ensures PartsOf(content) != [] && ParseFrom(out, BuildUser(content)) == Ok(out + [Msg(User, content)])
  {
    OnlyParts(content);
    UserMessageParses(PartsOf(content));
    assert BuildUser(content) == [UserMessage(PartsOf(content))];
    ParseUserMessage(out, UserMessage(PartsOf(content)));
  }

  lemma ParseUserMessage(out: seq<Msg>, m: WireMessage)
    requires m.role == "user" && UserBlocks(m.content).Ok?
    ensures ParseFrom(out, [m]) == Ok(out + [Msg(User, UserBlocks(m.content).value)])
  {
    ParseOne(out, m);
    assert |"user"| != |"system"| && |"user"| != |"developer"|;
  }

  lemma OneText(text: string)
    ensures BlocksText([TextBlock(text)]) == text
  {
    assert [TextBlock(text)][..0] == [] && "" + text == text;
  }

  lemma ResultBack(out: seq<Msg>, b: Block)
    requires GoodResult(b)
    ensures ParseFrom(out, ResultMessage(b)) == Ok(AddResult(out, b))
  {
    ParseOne(out, ResultMessage(b)[0]);
    OneText(b.result[0].text);
    assert b.result == [TextBlock(b.result[0].text)];
  }

  lemma ResultSnoc(front: seq<Block>, last: Block)
    requires last.ToolResult?
    ensures PartsOf(front + [last]) == PartsOf(front) && BuildUser(front + [last]) == BuildUser(front) + ResultMessage(last)
  {
    BuildSnoc(front, last);
    assert PartsOf(front) + [] == PartsOf(front);
  }

  /** What the blocks of a user message become when they are built and parsed after others. */
  function UserTurns(out: seq<Msg>, content: seq<Block>): seq<Msg> {
    if PartsOf(content) != [] then out + [Msg(User, content)] else AddResults(out, content)
  }

  lemma UserTurnsSnoc(out: seq<Msg>, front: seq<Block>, last: Block)
    requires last.ToolResult?
    ensures UserTurns(out, front + [last]) == AddResult(UserTurns(out, front), last)
  {
    ResultSnoc(front, last);
    assert (front + [last])[..|front|] == front;
  }

  /** A user message comes back as it was when it has parts of its own; otherwise its results attach to what is there. */
  lemma {:induction false} UserBack(out: seq<Msg>, content: seq<Block>)
    requires GoodUser(content)
    ensures ParseFrom(out, BuildUser(content)) == Ok(UserTurns(out, content))
    decreases |content|
  {
    if content != [] {
      var front, last := content[..|content| - 1], content[|content| - 1];
      assert content == front + [last];
      if last.ToolResult? {
        UserBack(out, front);
        ResultSnoc(front, last);
        ParseConcat(out, BuildUser(front), ResultMessage(last));
        ResultBack(UserTurns(out, front), last);
        UserTurnsSnoc(out, front, last);
      } else {
        PartsMessageBack(out, content);
      }
    }
  }

  lemma {:induction false} CallsBack(content: seq<Block>)
    requires GoodCalls(content)
    ensures |CallsOf(content)| == |content| && CallBlocks(CallsOf(content)) == content && BlocksText(content) == ""
  {
    if content != [] {
      var n := |content| - 1;
      CallsBack(content[..n]);
      assert content == content[..n] + [content[n]];
    }
  }

  lemma {:induction false} TextThenCalls(text: string, calls: seq<Block>)
    requires GoodCalls(calls)
    ensures CallsOf([TextBlock(text)] + calls) == CallsOf(calls) && BlocksText([TextBlock(text)] + calls) == text
    decreases |calls|
  {
    var content := [TextBlock(text)] + calls;
    if calls == [] {
      assert content == [TextBlock(text)] && content[..0] == [];
      assert "" + text == text;
    } else {
      var n := |calls| - 1;
      assert content[..|content| - 1] == [TextBlock(text)] + calls[..n];
      TextThenCalls(text, calls[..n]);
      assert text + "" == text;
    }
  }

  lemma AssistantBack(out: seq<Msg>, content: seq<Block>)
    requires GoodAssistant(content)
    ensures ParseFrom(out, [BuildAssistant(content)]) == Ok(out + [Msg(Assistant, content)])
  {
    ParseOne(out, BuildAssistant(content));
    if content != [] && content[0].TextBlock? {
      var calls := content[1..];
      CallsBack(calls);
      TextThenCalls(content[0].text, calls);
      assert content == [content[0]] + calls && content[0] == TextBlock(content[0].text);
    } else {
      CallsBack(content);
      assert [] + content == content;
    }
  }

  lemma InstructionBack(out: seq<Msg>, m: Msg)
    requires m.role in {System, Developer} && GoodInstruction(m.content)
    ensures BuildOne(m).Ok? && ParseFrom(out, BuildOne(m).value) == Ok(out + [m])
  {
    if m.content != [] {
      assert m.content == [TextBlock(m.content[0].text)];
      OneText(m.content[0].text);
    }
    assert |"developer"| != |"system"|;
    ParseOne(out, BuildOne(m).value[0]);
  }

  /** What a message becomes when it is built and parsed after others. */
  function Back(out: seq<Msg>, m: Msg): seq<Msg> {
    if m.role == User then UserTurns(out, m.content) else out + [m]
  }

  function BackAll(out: seq<Msg>, messages: seq<Msg>): seq<Msg>
    decreases |messages|
  {
    if messages == [] then out else BackAll(Back(out, messages[0]), messages[1..])
  }

  lemma OneBack(out: seq<Msg>, m: Msg)
    requires Normal(m)
    ensures BuildOne(m).Ok? && ParseFrom(out, BuildOne(m).value) == Ok(Back(out, m))
  {
    match m.role
    case User => UserBack(out, m.content);
    case Assistant => AssistantBack(out, m.content);
    case _ => InstructionBack(out, m);
  }

  lemma {:induction false} AllBack(out: seq<Msg>, messages: seq<Msg>)
    requires AllNormal(messages)
    ensures BuildAll(messages).Ok? && ParseFrom(out, BuildAll(messages).value) == Ok(BackAll(out, messages))
    decreases |messages|
  {
    if messages != [] {
      var m, tail := messages[0], messages[1..];
      OneBack(out, m);
      AllBack(Back(out, m), tail);
      ParseConcat(out, BuildOne(m).value, BuildAll(tail).value);
    }
  }

  // ---- when the messages come back ----

  /** A user message stays when it has a part of its own, or has tool results and does not follow a user message. */
  predicate Stays(afterUser: bool, m: Msg) {
    m.role != User || PartsOf(m.content) != [] || (m.content != [] && !afterUser)
  }

  predicate AllStay(afterUser: bool, messages: seq<Msg>)
    decreases |messages|
  {
    messages != [] ==> Stays(afterUser, messages[0]) && AllStay(messages[0].role == User, messages[1..])
  }

  lemma {:induction false} AddResultsShape(out: seq<Msg>, content: seq<Block>)
    requires content != []
    ensures if LastIsUser(out) then |AddResults(out, content)| == |out| && LastIsUser(AddResults(out, content))
            else AddResults(out, content) == out + [Msg(User, content)]
    decreases |content|
  {
    var n := |content| - 1;
    assert content == content[..n] + [content[n]];
    if n > 0 { AddResultsShape(out, content[..n]); }
  }

  lemma BackKeepsOrLoses(out: seq<Msg>, m: Msg)
    ensures if Stays(LastIsUser(out), m) then Back(out, m) == out + [m] else |Back(out, m)| == |out|
  {
    if m.role == User && PartsOf(m.content) == [] && m.content != [] { AddResultsShape(out, m.content); }
  }

  lemma {:induction false} BackIff(out: seq<Msg>, messages: seq<Msg>)
    ensures BackAll(out, messages) == out + messages <==> AllStay(LastIsUser(out), messages)
    ensures |BackAll(out, messages)| <= |out| + |messages|
    decreases |messages|
  {
    if messages != [] {
      var m, tail := messages[0], messages[1..];
      BackKeepsOrLoses(out, m);
      BackIff(Back(out, m), tail);
      if Stays(LastIsUser(out), m) {
        assert out + [m] + tail == out + messages;
      } else {
        assert |BackAll(out, messages)| < |out + messages|;
      }
    }
  }

  /** Parsing once is a normal form: building and parsing again gives the same canonical messages, if and only if every
      canonical user message has a text or image part, or has tool results and does not follow a user message. */
  lemma ParsingIsANormalForm(list: seq<WireMessage>)
    requires ParseFrom([], list).Ok?
    ensures var once := ParseFrom([], list).value;
      BuildAll(once).Ok? && (ParseFrom([], BuildAll(once).value) == Ok(once) <==> AllStay(false, once))
  {
    var once := ParseFrom([], list).value;
    ParsedIsNormal([], list);
    AllBack([], once);
    BackIff([], once);
    assert [] + once == once;
  }

  // ---- the condition on the wire ----

  /** A user message with at least one text or image part; a plain string is a text part, even an empty one. */
  predicate HasPart(m: WireMessage) { m.role == "user" ==> UserBlocks(m.content).Ok? && UserBlocks(m.content).value != [] }

  lemma {:induction false} StaySnoc(afterUser: bool, out: seq<Msg>, m: Msg)
    ensures AllStay(afterUser, out + [m])
      <==> AllStay(afterUser, out) && Stays(if out == [] then afterUser else LastIsUser(out), m)
    decreases |out|
  {
    if out == [] {
      assert out + [m] == [m] && [m][1..] == [];
    } else {
      assert (out + [m])[1..] == out[1..] + [m];
      StaySnoc(out[0].role == User, out[1..], m);
    }
  }

  lemma AmendStays(out: seq<Msg>, b: Block)
    requires AllStay(false, out) && LastIsUser(out) && b.ToolResult?
    ensures AllStay(false, Amend(out, b))
  {
    var n := |out| - 1;
    var front, last := out[..n], out[n];
    var more := last.(content := last.content + [b]);
    assert out == front + [last] && Amend(out, b) == front + [more];
    StaySnoc(false, front, last);
    StaySnoc(false, front, more);
    assert more.content[..|more.content| - 1] == last.content;
    assert PartsOf(more.content) == PartsOf(last.content) + [] == PartsOf(last.content);
  }

  lemma StepStays(out: seq<Msg>, m: WireMessage)
    requires AllStay(false, out) && HasPart(m) && ParseStep(out, m).Ok?
    ensures AllStay(false, ParseStep(out, m).value)
  {
    var next := ParseStep(out, m).value;
    if m.role == "tool" && LastIsUser(out) {
      AmendStays(out, ToolResult(m.toolCallId, [TextBlock(ContentText(m.content).value)], false));
    } else {
      var last := next[|next| - 1];
      assert next == out + [last];
      StaySnoc(false, out, last);
      if m.role == "user" {
        if m.content.Array? { PartBlocksAreGood(m.content.parts); }
        OnlyParts(last.content);
      }
    }
  }

  lemma {:induction false} PartsStay(out: seq<Msg>, list: seq<WireMessage>)
    requires AllStay(false, out) && ParseFrom(out, list).Ok? && forall i | 0 <= i < |list| :: HasPart(list[i])
    ensures AllStay(false, ParseFrom(out, list).value)
    decreases |list|
  {
    if list != [] {
      StepStays(out, list[0]);
      PartsStay(ParseStep(out, list[0]).value, list[1..]);
    }
  }

  /** For every list whose user messages each have a text or image part, once is enough: merged tool results, ordered
      system and developer messages, raw tool arguments and images all come back. */
  lemma MessagesWithPartsComeBack(list: seq<WireMessage>)
    requires ParseFrom([], list).Ok? && forall i | 0 <= i < |list| :: HasPart(list[i])
    ensures var once := ParseFrom([], list).value;
      BuildAll(once).Ok? && ParseFrom([], BuildAll(once).value) == Ok(once)
  {
    PartsStay([], list);
    ParsingIsANormalForm(list);
  }

  /** A user message with an empty content array is lost. */
  lemma EmptyUserMessageIsLost()
    ensures var list := [WireMessage("user", Array([]), [], "")];
      ParseFrom([], list) == Ok([Msg(User, [])]) && BuildAll([Msg(User, [])]) == Ok([])
  {
    var m := WireMessage("user", Array([]), [], "");
    ParseUserMessage([], m);
    assert BuildUser([]) == [] && BuildAll([]) == Ok([]);
    assert [] + [Msg(User, [])] == [Msg(User, [])];
    assert [Msg(User, [])][1..] == [];
  }
}
