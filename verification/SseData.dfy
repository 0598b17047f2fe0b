/** The payload of one record, against section 9.2.6 of the WHATWG HTML Living Standard. */
module SseData {
  import opened Int64
  import opened Sse

  const COLON: byte := 58
  const SPACE: byte := 32
  const DATA: seq<byte> := [100, 97, 116, 97]
  const OPEN_BRACE: byte := 123
  const DONE: seq<byte> := [91, 68, 79, 78, 69, 93]

  // ---- splitting a record into lines, the way the code does it ----

  function CrLfToLf(s: seq<byte>): seq<byte> {
    if s == [] then []
    else if |s| > 1 && s[0] == CR && s[1] == LF then [LF] + CrLfToLf(s[2..])
    else [s[0]] + CrLfToLf(s[1..])
  }

  function CrToLf(s: seq<byte>): seq<byte> {
    if s == [] then [] else [if s[0] == CR then LF else s[0]] + CrToLf(s[1..])
  }

  function Split(s: seq<byte>): (lines: seq<Line>)
    ensures lines != []
  {
    if s == [] then [[]]
    else
      var rest := Split(s[1..]);
      if s[0] == LF then [[]] + rest else [[s[0]] + rest[0]] + rest[1..]
  }

  lemma EolThen(s: seq<byte>)
    requires s != [] && IsEol(s[0])
    ensures Lines(s) == [[]] + Lines(AfterEol(s, 0))
  {
    assert Eol(s) == 0;
  }

  lemma TextThen(s: seq<byte>)
    requires s != [] && !IsEol(s[0])
    ensures Lines(s) == [[s[0]] + Lines(s[1..])[0]] + Lines(s[1..])[1..]
  {
    var n := Eol(s[1..]);
    assert Eol(s) == 1 + n;
    if n == |s[1..]| {
      assert Lines(s) == [s] && Lines(s[1..]) == [s[1..]];
      assert s == [s[0]] + s[1..];
    } else {
      assert s[..1 + n] == [s[0]] + s[1..][..n];
      assert AfterEol(s, 1 + n) == AfterEol(s[1..], n);
    }
  }

  lemma SplitCons(b: byte, s: seq<byte>)
    ensures Split([b] + s) == if b == LF then [[]] + Split(s) else [[b] + Split(s)[0]] + Split(s)[1..]
  {
    assert ([b] + s)[1..] == s;
  }

  lemma CrToLfCons(b: byte, s: seq<byte>)
    ensures CrToLf([b] + s) == [if b == CR then LF else b] + CrToLf(s)
  {
    assert ([b] + s)[1..] == s;
  }

  /** Replacing CRLF, then CR, then splitting at LF finds the lines of the standard. */
  lemma {:induction false} SplitFindsLines(s: seq<byte>)
    ensures Split(CrToLf(CrLfToLf(s))) == Lines(s)
    decreases |s|
  {
    if s == [] {
    } else if |s| > 1 && s[0] == CR && s[1] == LF {
      SplitFindsLines(s[2..]);
      CrToLfCons(LF, CrLfToLf(s[2..]));
      SplitCons(LF, CrToLf(CrLfToLf(s[2..])));
      EolThen(s);
    } else {
      SplitFindsLines(s[1..]);
      CrToLfCons(s[0], CrLfToLf(s[1..]));
      SplitCons(if s[0] == CR then LF else s[0], CrToLf(CrLfToLf(s[1..])));
      if IsEol(s[0]) { EolThen(s); } else { TextThen(s); }
    }
  }

  // ---- the fields of a line ----

  function Colon(line: Line): (n: nat)
    ensures n <= |line| && (n < |line| ==> line[n] == COLON)
  {
    if line == [] || line[0] == COLON then 0 else 1 + Colon(line[1..])
  }

  predicate IsComment(line: Line) { line != [] && line[0] == COLON }

  predicate HasColon(line: Line) { Colon(line) < |line| }

  function FieldName(line: Line): Line { line[..Colon(line)] }

  /** The value of a field: what follows the colon, less one leading space; empty for a line without a colon. */
  function FieldValue(line: Line): Line {
    var n := Colon(line);
    if n == |line| then [] else if n + 1 < |line| && line[n + 1] == SPACE then line[n + 2..] else line[n + 1..]
  }

  // ---- what the standard makes of the lines of a record ----

  function Appended(line: Line): seq<byte> {
    if line != [] && !IsComment(line) && FieldName(line) == DATA then FieldValue(line) + [LF] else []
  }

  /** The data buffer: each data field appends its value and an LF. */
  function DataBuffer(lines: seq<Line>): seq<byte> {
    if lines == [] then [] else Appended(lines[0]) + DataBuffer(lines[1..])
  }

  /** The payload dispatched: nothing for an empty buffer, otherwise the buffer without its last LF. */
  function Dispatched(lines: seq<Line>): Option<seq<byte>> {
    var buffer := DataBuffer(lines);
    if buffer == [] then None else Some(buffer[..|buffer| - 1])
  }

  // ---- what the code does ----

  predicate IsDataLine(line: Line) { line != [] && !IsComment(line) && HasColon(line) && FieldName(line) == DATA }

  function DataParts(lines: seq<Line>): seq<Line> {
    if lines == [] then []
    else (if IsDataLine(lines[0]) then [FieldValue(lines[0])] else []) + DataParts(lines[1..])
  }

  predicate IsSpace(b: byte) { b == SPACE || 9 <= b <= 13 }

  function TrimSpace(s: seq<byte>): seq<byte> {
    if s == [] then []
    else if IsSpace(s[0]) then TrimSpace(s[1..])
    else if IsSpace(s[|s| - 1]) then TrimSpace(s[..|s| - 1])
    else s
  }

  /** A record without data lines still counts when it is a bare JSON object or the bare end marker. */
  function Bare(raw: seq<byte>): Option<seq<byte>> {
    var trimmed := TrimSpace(CrToLf(CrLfToLf(raw)));
    if (trimmed != [] && trimmed[0] == OPEN_BRACE) || trimmed == DONE then Some(trimmed) else None
  }

  /** The payload the decoders see. */
  function Payload(raw: seq<byte>): Option<seq<byte>> {
    var text := TrimBom(raw);
    var parts := DataParts(Lines(text));
    if parts != [] then Some(Join(parts)) else Bare(text)
  }

  lemma DataPartsSnoc(lines: seq<Line>, line: Line)
    ensures DataParts(lines + [line]) == DataParts(lines) + if IsDataLine(line) then [FieldValue(line)] else []
  {
    if lines == [] {
      assert lines + [line] == [line];
    } else {
      assert (lines + [line])[1..] == lines[1..] + [line];
      DataPartsSnoc(lines[1..], line);
    }
  }

  method CollectData(lines: seq<Line>) returns (parts: seq<Line>)
    ensures parts == DataParts(lines)
  {
    parts := [];
    for i := 0 to |lines|
      invariant parts == DataParts(lines[..i])
    {
      var line := lines[i];
      assert lines[..i + 1] == lines[..i] + [line];
      DataPartsSnoc(lines[..i], line);
      if |line| == 0 || line[0] == COLON {
        continue;
      }
      var n := Colon(line);
      if n == |line| || line[..n] != DATA {
        continue;
      }
      var value := line[n + 1..];
      if |value| > 0 && value[0] == SPACE {
        value := value[1..];
      }
      parts := parts + [value];
    }
    assert lines[..|lines|] == lines;
  }

  method SSEData(raw: seq<byte>) returns (r: Option<seq<byte>>)
    ensures r == Payload(raw)
  {
    var text := CrToLf(CrLfToLf(TrimBom(raw)));
    SplitFindsLines(TrimBom(raw));
    var parts := CollectData(Split(text));
    if |parts| > 0 {
      return Some(Join(parts));
    }
    var trimmed := TrimSpace(text);
    if (|trimmed| > 0 && trimmed[0] == OPEN_BRACE) || trimmed == DONE {
      return Some(trimmed);
    }
    return None;
  }

  // ---- agreement ----

  /** A data field without a colon: the standard gives it an empty value, the code skips it. */
  predicate IsBareData(line: Line) { line == DATA }

  lemma BareDataShape(line: Line)
    ensures line != [] && !IsComment(line) && FieldName(line) == DATA <==> IsDataLine(line) || IsBareData(line)
    ensures IsBareData(line) ==> FieldValue(line) == []
  {
    if line == DATA {
      assert Colon(line[4..]) == 0 && Colon(line[3..]) == 1 && Colon(line[2..]) == 2 && Colon(line[1..]) == 3 && Colon(line) == 4;
    }
    if Colon(line) == |line| { assert line[..|line|] == line; }
  }

  function Ended(parts: seq<Line>): seq<byte> { if parts == [] then [] else parts[0] + [LF] + Ended(parts[1..]) }

  lemma {:induction false} EndedIsJoin(parts: seq<Line>)
    requires parts != []
    ensures Ended(parts) == Join(parts) + [LF]
  {
    if |parts| > 1 {
      EndedIsJoin(parts[1..]);
      assert parts[0] + [LF] + (Join(parts[1..]) + [LF]) == parts[0] + [LF] + Join(parts[1..]) + [LF];
    } else {
      assert Ended(parts[1..]) == [];
    }
  }

  predicate HasBareData(lines: seq<Line>) { lines != [] && (IsBareData(lines[0]) || HasBareData(lines[1..])) }

  lemma EndedCons(part: Line, parts: seq<Line>)
    ensures Ended([part] + parts) == part + [LF] + Ended(parts)
  {
    assert ([part] + parts)[1..] == parts;
  }

  lemma {:induction false} BufferIsEnded(lines: seq<Line>)
    ensures if HasBareData(lines) then |DataBuffer(lines)| > |Ended(DataParts(lines))|
            else DataBuffer(lines) == Ended(DataParts(lines))
  {
    if lines != [] {
      var line, tail := lines[0], lines[1..];
      BufferIsEnded(tail);
      BareDataShape(line);
      EndedCons(FieldValue(line), DataParts(tail));
      assert [] + DataParts(tail) == DataParts(tail) && [] + DataBuffer(tail) == DataBuffer(tail);
    }
  }

  /** A record with a data line gives the decoders the payload of the standard, if and only if no line is a data field
      without a colon. */
  lemma PayloadIsTheStandards(raw: seq<byte>)
    requires DataParts(Lines(TrimBom(raw))) != []
    ensures Payload(raw) == Dispatched(Lines(TrimBom(raw))) <==> !HasBareData(Lines(TrimBom(raw)))
  {
    var lines := Lines(TrimBom(raw));
    var parts, buffer := DataParts(lines), DataBuffer(lines);
    BufferIsEnded(lines);
    EndedIsJoin(parts);
    assert (Join(parts) + [LF])[..|Join(parts)|] == Join(parts);
  }

  ghost predicate AllSpace(s: seq<byte>) { forall i | 0 <= i < |s| :: IsWhite(s[i]) }

  predicate IsWhite(b: byte) { b == 32 || b == 9 || b == 10 || b == 11 || b == 12 || b == 13 }

  /** What is left of a text when the white space around it is gone. */
  ghost predicate IsCore(core: seq<byte>, text: seq<byte>) {
    && (core != [] ==> !IsWhite(core[0]) && !IsWhite(core[|core| - 1]))
    && exists i, j :: Surrounds(text, i, j) && core == text[i..j]
  }

  ghost predicate Surrounds(text: seq<byte>, i: int, j: int) { 0 <= i <= j <= |text| && AllSpace(text[..i]) && AllSpace(text[j..]) }

  lemma DropThenCut(s: seq<byte>, i: int, j: int)
    requires 0 <= i <= j < |s|
    ensures s[1..][i..j] == s[i + 1..j + 1]
  {
  }

  lemma SpaceBefore(s: seq<byte>, i: int, j: int)
    requires s != [] && IsWhite(s[0]) && Surrounds(s[1..], i, j)
    ensures Surrounds(s, i + 1, j + 1) && s[i + 1..j + 1] == s[1..][i..j]
  {
    assert s[..i + 1] == [s[0]] + s[1..][..i] && s[j + 1..] == s[1..][j..];
    DropThenCut(s, i, j);
  }

  lemma SpaceAfter(s: seq<byte>, i: int, j: int)
    requires s != [] && IsWhite(s[|s| - 1]) && Surrounds(s[..|s| - 1], i, j)
    ensures Surrounds(s, i, j) && s[i..j] == s[..|s| - 1][i..j]
  {
    var n := |s| - 1;
    assert s[..i] == s[..n][..i] && s[j..] == s[..n][j..] + [s[n]];
  }

  lemma {:induction false} TrimBounds(s: seq<byte>) returns (i: int, j: int)
    ensures Surrounds(s, i, j) && TrimSpace(s) == s[i..j]
    ensures TrimSpace(s) != [] ==> !IsWhite(TrimSpace(s)[0]) && !IsWhite(TrimSpace(s)[|TrimSpace(s)| - 1])
    decreases |s|
  {
    if s == [] {
      i, j := 0, 0;
    } else if IsSpace(s[0]) {
      i, j := TrimBounds(s[1..]);
      SpaceBefore(s, i, j);
      i, j := i + 1, j + 1;
    } else if IsSpace(s[|s| - 1]) {
      i, j := TrimBounds(s[..|s| - 1]);
      SpaceAfter(s, i, j);
    } else {
      i, j := 0, |s|;
    }
  }

  lemma TrimFindsCore(s: seq<byte>)
    ensures IsCore(TrimSpace(s), s)
  {
    var i, j := TrimBounds(s);
  }

  /** A bare payload: the text of the lines without the white space around it, when that starts an object or is [DONE]. */
  ghost predicate IsBare(payload: Option<seq<byte>>, lines: seq<Line>) {
    exists core :: IsCore(core, Join(lines))
      && payload == if (core != [] && core[0] == 123) || core == [91, 68, 79, 78, 69, 93] then Some(core) else None
  }

  lemma Prefixed(b: byte, head: Line, rest: seq<byte>)
    ensures [b] + head + [LF] + rest == [b] + (head + [LF] + rest)
  {
  }

  lemma JoinMore(b: byte, head: Line, tail: seq<Line>)
    ensures Join([[b] + head] + tail) == [b] + Join([head] + tail)
  {
    JoinCons(head, tail);
    JoinCons([b] + head, tail);
    if tail != [] { Prefixed(b, head, Join(tail)); }
  }

  lemma {:induction false} SplitJoins(s: seq<byte>)
    ensures Join(Split(s)) == s
  {
    if s != [] {
      SplitJoins(s[1..]);
      var rest := Split(s[1..]);
      if s[0] == LF {
        JoinCons([], rest);
        assert s == [] + [LF] + s[1..];
      } else {
        JoinMore(s[0], rest[0], rest[1..]);
        assert rest == [rest[0]] + rest[1..];
      }
    }
  }

  /** A record without data lines: the standard dispatches nothing unless a data field has no colon; the code accepts
      exactly the bare objects and the bare end marker. */
  lemma PayloadWithoutData(raw: seq<byte>)
    requires DataParts(Lines(TrimBom(raw))) == []
    ensures IsBare(Payload(raw), Lines(TrimBom(raw)))
    ensures Dispatched(Lines(TrimBom(raw))).None? <==> !HasBareData(Lines(TrimBom(raw)))
  {
    var text := TrimBom(raw);
    BufferIsEnded(Lines(text));
    SplitFindsLines(text);
    SplitJoins(CrToLf(CrLfToLf(text)));
    TrimFindsCore(CrToLf(CrLfToLf(text)));
    assert IsCore(TrimSpace(CrToLf(CrLfToLf(text))), Join(Lines(text)));
  }

  /** How a line is cut: the name up to the first colon, the value after it without one space; without a colon all is name. */
  lemma FieldsAreCut(name: Line, value: Line)
    requires forall i | 0 <= i < |name| :: name[i] != 58
    ensures FieldName(name + [58, 32] + value) == name && FieldValue(name + [58, 32] + value) == value
    ensures value == [] || value[0] != 32 ==> FieldName(name + [58] + value) == name && FieldValue(name + [58] + value) == value
    ensures FieldName(name) == name && FieldValue(name) == []
  {
    var spaced, plain := name + [58, 32] + value, name + [58] + value;
    ColonIs(spaced, |name|);
    ColonIs(plain, |name|);
    ColonIs(name, |name|);
    assert spaced[..|name|] == name && spaced[|name| + 2..] == value;
    assert plain[..|name|] == name && plain[|name| + 1..] == value;
    assert name[..|name|] == name;
  }

  lemma DataLine(value: Line)
    requires value != [] ==> value[0] != SPACE
    ensures var line := DATA + [COLON] + value; IsDataLine(line) && FieldValue(line) == value
  {
    var line := DATA + [COLON] + value;
    ColonIs(line, 4);
    assert line[..4] == DATA && line[5..] == value && line[0] == 100;
  }

  lemma DataThenBareData(line: Line)
    requires IsDataLine(line)
    ensures DataParts([line, DATA]) == [FieldValue(line)] && DataBuffer([line, DATA]) == FieldValue(line) + [LF] + [LF]
  {
    assert [line, DATA][1..] == [DATA] && [DATA][1..] == [];
    BareDataShape(DATA);
    ColonIs(DATA, 4);
    assert DataParts([DATA]) == [] && DataBuffer([DATA]) == [LF];
  }

  /** A data line followed by a field line without a colon: the standard adds an LF to the value, the code does not. */
  lemma BareDataLineIsSkipped(value: Line)
    requires Plain(value) && (value != [] ==> value[0] != SPACE)
    ensures var raw := DATA + [COLON] + value + [LF] + DATA;
      Payload(raw) == Some(value) && Dispatched(Lines(TrimBom(raw))) == Some(value + [LF])
  {
    var line := DATA + [COLON] + value;
    var raw := line + [LF] + DATA;
    assert raw[0] == 100 && TrimBom(raw) == raw;
    LfLine(line, DATA);
    EolIs(DATA, 4);
    assert Lines(raw) == [line, DATA];
    DataLine(value);
    DataThenBareData(line);
  }

  lemma {:induction false} ColonIs(line: Line, n: nat)
    requires n <= |line| && (forall i | 0 <= i < n :: line[i] != COLON) && (n < |line| ==> line[n] == COLON)
    ensures Colon(line) == n
  {
    if n > 0 { ColonIs(line[1..], n - 1); }
  }
}
