/** The OpenAI message list: parsing unfolds it into canonical messages of blocks, building folds those back. */
module Messages {
  import opened Int64
  import opened Images

  // ---- the wire format ----

  /** One entry of a content array; the image reference may be missing. */
  datatype WirePart = WirePart(kind: string, text: string, url: Option<string>)

  datatype WireContent = Missing | Str(text: string) | Array(parts: seq<WirePart>) | Other

  datatype WireCall = WireCall(id: string, name: string, arguments: string)

  datatype WireMessage = WireMessage(role: string, content: WireContent, toolCalls: seq<WireCall>, toolCallId: string)

  // ---- canonical messages ----

  datatype Role = System | Developer | User | Assistant

  /** Without raw arguments a tool use is written as an empty object. */
  datatype Block =
    | TextBlock(text: string)
    | ImageBlock(source: Option<ImageSource>)
    | ThinkingBlock(thinking: string)
    | ToolUse(id: string, name: string, input: Option<string>)
    | ToolResult(id: string, result: seq<Block>, isError: bool)

  datatype Msg = Msg(role: Role, content: seq<Block>)

  datatype ParseError = BadContent | UnknownRole

  datatype BuildError = InstructionNotText(role: Role)

  // ---- parsing ----

  function PartsText(parts: seq<WirePart>): string {
    if parts == [] then "" else (if parts[0].kind == "text" then parts[0].text else "") + PartsText(parts[1..])
  }

  function ContentText(content: WireContent): Result<string, ParseError> {
    match content
    case Missing => Ok("")
    case Str(text) => Ok(text)
    case Array(parts) => Ok(PartsText(parts))
    case Other => Err(BadContent)
  }

  function TextOnly(text: string): seq<Block> { if text == "" then [] else [TextBlock(text)] }

  function PartBlock(p: WirePart): seq<Block> {
    if p.kind == "text" then [TextBlock(p.text)]
    else if p.kind == "image_url" && p.url.Some? then [ImageBlock(Some(ParseImageUrl(p.url.value)))]
    else []
  }

  function PartBlocks(parts: seq<WirePart>): seq<Block> {
    if parts == [] then [] else PartBlocks(parts[..|parts| - 1]) + PartBlock(parts[|parts| - 1])
  }

  function UserBlocks(content: WireContent): Result<seq<Block>, ParseError> {
    match content
    case Str(text) => Ok([TextBlock(text)])
    case Array(parts) => Ok(PartBlocks(parts))
    case _ => Err(BadContent)
  }

  function CallBlocks(calls: seq<WireCall>): seq<Block> {
    seq(|calls|, i requires 0 <= i < |calls| => ToolUse(calls[i].id, calls[i].name, Some(calls[i].arguments)))
  }

  function AssistantBlocks(m: WireMessage): Result<seq<Block>, ParseError> {
    var text := ContentText(m.content);
    if text.Err? then Err(text.error) else Ok(TextOnly(text.value) + CallBlocks(m.toolCalls))
  }

  predicate LastIsUser(out: seq<Msg>) { out != [] && out[|out| - 1].role == User }

  /** The last message with a block more. */
  function Amend(out: seq<Msg>, block: Block): seq<Msg>
    requires out != []
  {
    out[|out| - 1 := out[|out| - 1].(content := out[|out| - 1].content + [block])]
  }

  function AddResult(out: seq<Msg>, block: Block): seq<Msg> {
    if LastIsUser(out) then Amend(out, block) else out + [Msg(User, [block])]
  }

  /** One more message of the list. */
  function ParseStep(out: seq<Msg>, m: WireMessage): Result<seq<Msg>, ParseError> {
    if m.role == "system" || m.role == "developer" then
      var text := ContentText(m.content);
      if text.Err? then Err(text.error)
      else Ok(out + [Msg(if m.role == "developer" then Developer else System, TextOnly(text.value))])
    else if m.role == "user" then
      var blocks := UserBlocks(m.content);
      if blocks.Err? then Err(blocks.error) else Ok(out + [Msg(User, blocks.value)])
    else if m.role == "assistant" then
      var blocks := AssistantBlocks(m);
      if blocks.Err? then Err(blocks.error) else Ok(out + [Msg(Assistant, blocks.value)])
    else if m.role == "tool" then
      var text := ContentText(m.content);
      if text.Err? then Err(text.error) else Ok(AddResult(out, ToolResult(m.toolCallId, [TextBlock(text.value)], false)))
    else Err(UnknownRole)
  }

  function ParseFrom(out: seq<Msg>, list: seq<WireMessage>): Result<seq<Msg>, ParseError>
    decreases |list|
  {
    if list == [] then Ok(out)
    else
      var next := ParseStep(out, list[0]);
      if next.Err? then Err(next.error) else ParseFrom(next.value, list[1..])
  }

  method ParseUserContent(content: WireContent) returns (r: Result<seq<Block>, ParseError>)
    ensures r == UserBlocks(content)
  {
    if content.Str? {
      return Ok([TextBlock(content.text)]);
    }
    if !content.Array? {
      return Err(BadContent);
    }
    var parts := content.parts;
    var blocks: seq<Block> := [];
    for i := 0 to |parts|
      invariant blocks == PartBlocks(parts[..i])
    {
      var p := parts[i];
      assert parts[..i + 1][..i] == parts[..i];
      if p.kind == "text" {
        blocks := blocks + [TextBlock(p.text)];
      } else if p.kind == "image_url" {
        if p.url.None? {
          continue;
        }
        blocks := blocks + [ImageBlock(Some(ParseImageUrl(p.url.value)))];
      }
    }
    assert parts[..|parts|] == parts;
    return Ok(blocks);
  }

  method ParseRequest(list: seq<WireMessage>) returns (r: Result<seq<Msg>, ParseError>)
    ensures r == ParseFrom([], list)
  {
    var out: seq<Msg> := [];
    for i := 0 to |list|
      invariant ParseFrom(out, list[i..]) == ParseFrom([], list)
    {
      var m := list[i];
      assert list[i..][0] == m && list[i..][1..] == list[i + 1..];
      ghost var before := out;
      if m.role == "system" || m.role == "developer" {
        var text := ContentText(m.content);
        if text.Err? { return Err(text.error); }
        out := out + [Msg(if m.role == "developer" then Developer else System, TextOnly(text.value))];
      } else if m.role == "user" {
        var blocks := ParseUserContent(m.content);
        if blocks.Err? { return Err(blocks.error); }
        out := out + [Msg(User, blocks.value)];
      } else if m.role == "assistant" {
        var blocks := AssistantBlocks(m);
        if blocks.Err? { return Err(blocks.error); }
        out := out + [Msg(Assistant, blocks.value)];
      } else if m.role == "tool" {
        var text := ContentText(m.content);
        if text.Err? { return Err(text.error); }
        var block := ToolResult(m.toolCallId, [TextBlock(text.value)], false);
        var n := |out|;
        if n > 0 && out[n - 1].role == User {
          out := out[n - 1 := out[n - 1].(content := out[n - 1].content + [block])];
        } else {
          out := out + [Msg(User, [block])];
        }
      } else {
        return Err(UnknownRole);
      }
      assert ParseStep(before, m) == Ok(out);
    }
    assert list[|list|..] == [];
    return Ok(out);
  }

  // ---- building ----

  function BlocksText(blocks: seq<Block>): string {
    if blocks == [] then ""
    else
      var last := blocks[|blocks| - 1];
      BlocksText(blocks[..|blocks| - 1]) + if last.TextBlock? then last.text else ""
  }

  function BlockPart(b: Block): seq<WirePart> {
    if b.TextBlock? then [WirePart("text", b.text, None)]
    else if b.ImageBlock? && b.source.Some? then [WirePart("image_url", "", Some(ImageUrl(b.source.value)))]
    else []
  }

  function PartsOf(blocks: seq<Block>): seq<WirePart> {
    if blocks == [] then [] else PartsOf(blocks[..|blocks| - 1]) + BlockPart(blocks[|blocks| - 1])
  }

  function ResultMessage(b: Block): seq<WireMessage> {
    if b.ToolResult? then [WireMessage("tool", Str(BlocksText(b.result)), [], b.id)] else []
  }

  function ResultsOf(blocks: seq<Block>): seq<WireMessage> {
    if blocks == [] then [] else ResultsOf(blocks[..|blocks| - 1]) + ResultMessage(blocks[|blocks| - 1])
  }

  function UserMessage(parts: seq<WirePart>): WireMessage {
    WireMessage("user", if |parts| == 1 && parts[0].kind == "text" then Str(parts[0].text) else Array(parts), [], "")
  }

  function BuildUser(blocks: seq<Block>): seq<WireMessage> {
    (if PartsOf(blocks) == [] then [] else [UserMessage(PartsOf(blocks))]) + ResultsOf(blocks)
  }

  function BlockCall(b: Block): seq<WireCall> {
    if b.ToolUse? then [WireCall(b.id, b.name, if b.input.Some? then b.input.value else "{}")] else []
  }

  function CallsOf(blocks: seq<Block>): seq<WireCall> {
    if blocks == [] then [] else CallsOf(blocks[..|blocks| - 1]) + BlockCall(blocks[|blocks| - 1])
  }

  function BuildAssistant(blocks: seq<Block>): WireMessage {
    WireMessage("assistant", if BlocksText(blocks) == "" then Missing else Str(BlocksText(blocks)), CallsOf(blocks), "")
  }

  predicate AllText(blocks: seq<Block>) { forall i | 0 <= i < |blocks| :: blocks[i].TextBlock? }

  function BuildOne(m: Msg): Result<seq<WireMessage>, BuildError> {
    match m.role
    case User => Ok(BuildUser(m.content))
    case Assistant => Ok([BuildAssistant(m.content)])
    case _ =>
      if AllText(m.content)
      then Ok([WireMessage(if m.role == System then "system" else "developer", Str(BlocksText(m.content)), [], "")])
      else Err(InstructionNotText(m.role))
  }

  function BuildAll(messages: seq<Msg>): Result<seq<WireMessage>, BuildError> {
    if messages == [] then Ok([])
    else
      var first, rest := BuildOne(messages[0]), BuildAll(messages[1..]);
      if first.Err? then first else if rest.Err? then rest else Ok(first.value + rest.value)
  }

  method BuildUserMessages(blocks: seq<Block>) returns (msgs: seq<WireMessage>)
    ensures msgs == BuildUser(blocks)
  {
    var parts: seq<WirePart>, toolMsgs: seq<WireMessage> := [], [];
    for i := 0 to |blocks|
      invariant parts == PartsOf(blocks[..i]) && toolMsgs == ResultsOf(blocks[..i])
    {
      var b := blocks[i];
      assert blocks[..i + 1][..i] == blocks[..i];
      match b {
        case TextBlock(text) => parts := parts + [WirePart("text", text, None)];
        case ImageBlock(source) =>
          if source.Some? {
            parts := parts + [WirePart("image_url", "", Some(ImageUrl(source.value)))];
          }
        case ToolResult(id, result, _) => toolMsgs := toolMsgs + [WireMessage("tool", Str(BlocksText(result)), [], id)];
        case _ =>
      }
    }
    assert blocks[..|blocks|] == blocks;
    msgs := [];
    if |parts| > 0 {
      msgs := msgs + [UserMessage(parts)];
    }
    msgs := msgs + toolMsgs;
  }

  method BuildAssistantMessage(blocks: seq<Block>) returns (msg: WireMessage)
    ensures msg == BuildAssistant(blocks)
  {
    var text, calls: seq<WireCall> := "", [];
    for i := 0 to |blocks|
      invariant text == BlocksText(blocks[..i]) && calls == CallsOf(blocks[..i])
    {
      var b := blocks[i];
      assert blocks[..i + 1][..i] == blocks[..i];
      match b {
        case TextBlock(t) => text := text + t;
        case ToolUse(id, name, input) => calls := calls + [WireCall(id, name, if input.Some? then input.value else "{}")];
        case _ =>
      }
    }
    assert blocks[..|blocks|] == blocks;
    msg := WireMessage("assistant", if text == "" then Missing else Str(text), calls, "");
  }

  method BuildMessage(m: Msg) returns (r: Result<seq<WireMessage>, BuildError>)
    ensures r == BuildOne(m)
  {
    match m.role {
      case User =>
        var msgs := BuildUserMessages(m.content);
        return Ok(msgs);
      case Assistant =>
        var msg := BuildAssistantMessage(m.content);
        return Ok([msg]);
      case _ =>
        if !AllText(m.content) {
          return Err(InstructionNotText(m.role));
        }
        return Ok([WireMessage(if m.role == System then "system" else "developer", Str(BlocksText(m.content)), [], "")]);
    }
  }

  /** The messages of a request; a top-level system prompt goes first. */
  method BuildRequest(system: seq<Block>, messages: seq<Msg>) returns (r: Result<seq<WireMessage>, BuildError>)
    ensures r == var all := BuildAll(messages); if all.Err? then all else Ok(SystemPrompt(system) + all.value)
  {
    var out := SystemPrompt(system);
    ghost var all := BuildAll(messages);
    for i := 0 to |messages|
      invariant var rest := BuildAll(messages[i..]);
        if all.Err? then rest == all else rest.Ok? && out + rest.value == SystemPrompt(system) + all.value
    {
      assert messages[i..][0] == messages[i] && messages[i..][1..] == messages[i + 1..];
      ghost var later := BuildAll(messages[i + 1..]);
      var msgs := BuildMessage(messages[i]);
      if msgs.Err? { return Err(msgs.error); }
      if later.Ok? { assert out + (msgs.value + later.value) == out + msgs.value + later.value; }
      out := out + msgs.value;
    }
    assert messages[|messages|..] == [] && out + [] == out;
    return Ok(out);
  }

  function SystemPrompt(system: seq<Block>): seq<WireMessage> {
    if BlocksText(system) == "" then [] else [WireMessage("system", Str(BlocksText(system)), [], "")]
  }
}
