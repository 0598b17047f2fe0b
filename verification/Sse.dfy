/** Server-sent event framing: the byte-level record reader of the upstream stream and the writer that restores the
    record boundaries. Line endings are those of section 9.2.5 of the WHATWG HTML Living Standard. */
module Sse {
  import opened Int64

  type byte = x: int | 0 <= x < 256
  type Line = seq<byte>

  const LF: byte := 10
  const CR: byte := 13
  const BOM: seq<byte> := [0xEF, 0xBB, 0xBF]
  const MAX_SSE_RECORD_BYTES := 4_194_304

  /** Why reading stopped; the error of the connection itself repeats when it is read again. */
  datatype ReadError = Eof | Broken | RecordTooLarge

  // ---- lines and records, as the standard describes them ----

  predicate IsEol(b: byte) { b == LF || b == CR }

  /** Where the first line ends. */
  function Eol(s: seq<byte>): (n: nat)
    ensures n <= |s|
  {
    if s == [] || IsEol(s[0]) then 0 else 1 + Eol(s[1..])
  }

  ghost predicate FirstEol(s: seq<byte>, n: nat) {
    n <= |s| && (forall i | 0 <= i < n :: !IsEol(s[i])) && (n < |s| ==> IsEol(s[n]))
  }

  lemma {:induction false} EolIsFirst(s: seq<byte>)
    ensures FirstEol(s, Eol(s))
  {
    if s != [] && !IsEol(s[0]) {
      EolIsFirst(s[1..]);
      assert forall i | 0 < i < |s| :: s[i] == s[1..][i - 1];
    }
  }

  lemma EolIs(s: seq<byte>, n: nat)
    requires FirstEol(s, n)
    ensures Eol(s) == n
  {
    EolIsFirst(s);
  }

  function AfterEol(s: seq<byte>, n: nat): seq<byte>
    requires n < |s|
  {
    if s[n] == CR && n + 1 < |s| && s[n + 1] == LF then s[n + 2..] else s[n + 1..]
  }

  /** Every line of a stream; the last one is what follows the last line ending. */
  function Lines(s: seq<byte>): (lines: seq<Line>)
    ensures lines != []
    decreases |s|
  {
    var n := Eol(s);
    if n == |s| then [s] else [s[..n]] + Lines(AfterEol(s, n))
  }

  function TrimBom(s: seq<byte>): seq<byte> { if BOM <= s then s[3..] else s }

  function TrimFirst(lines: seq<Line>): seq<Line>
    requires lines != []
  {
    [TrimBom(lines[0])] + lines[1..]
  }

  /** The lines from a position of the stream on; only the first line of a stream can carry a byte order mark. */
  function StreamLines(s: seq<byte>, first: bool): seq<Line> {
    if first then TrimFirst(Lines(s)) else Lines(s)
  }

  function Join(parts: seq<Line>): seq<byte> {
    if parts == [] then [] else if |parts| == 1 then parts[0] else parts[0] + [LF] + Join(parts[1..])
  }

  /** How many lines come before the first empty one. */
  function RunLength(lines: seq<Line>): (n: nat)
    ensures n <= |lines|
    ensures lines != [] && lines[0] != [] ==> n > 0
  {
    if lines == [] || lines[0] == [] then 0 else 1 + RunLength(lines[1..])
  }

  lemma {:induction false} RunIs(lines: seq<Line>, n: nat)
    requires n <= |lines| && (forall i | 0 <= i < n :: lines[i] != []) && (n < |lines| ==> lines[n] == [])
    ensures RunLength(lines) == n
  {
    if n > 0 { RunIs(lines[1..], n - 1); }
  }

  lemma {:induction false} RunStops(lines: seq<Line>)
    ensures forall i | 0 <= i < RunLength(lines) :: lines[i] != []
    ensures RunLength(lines) < |lines| ==> lines[RunLength(lines)] == []
  {
    if lines != [] && lines[0] != [] {
      RunStops(lines[1..]);
      assert forall i | 0 < i < |lines| :: lines[i] == lines[1..][i - 1];
    }
  }

  /** The maximal runs of non-empty lines, each joined by LF. */
  function Records(lines: seq<Line>): seq<Line>
    decreases |lines|
  {
    if lines == [] then []
    else if lines[0] == [] then Records(lines[1..])
    else
      var n := RunLength(lines);
      [Join(lines[..n])] + Records(lines[n..])
  }

  // ---- what the reader does ----

  function Append(buf: seq<byte>, line: Line): seq<byte> { if buf == [] then line else buf + [LF] + line }

  /** One line, why reading it stopped, and what is left. The byte that makes a line too long is lost. */
  function LineRead(s: seq<byte>, ending: ReadError): (r: (Line, Option<ReadError>, seq<byte>))
    ensures r.1.None? ==> |r.2| < |s|
    ensures |r.2| <= |s| && (r.0 != [] ==> |r.2| < |s|)
  {
    var n := Eol(s);
    if n > MAX_SSE_RECORD_BYTES then ([], Some(RecordTooLarge), s[MAX_SSE_RECORD_BYTES + 1..])
    else if n == |s| then (s, Some(ending), [])
    else (s[..n], None, AfterEol(s, n))
  }

  datatype Step = Again(buf: seq<byte>) | Return(r: Result<seq<byte>, ReadError>)

  /** What a line, with its byte order mark gone, does to the lines buffered. */
  function TakeLine(buf: seq<byte>, line: Line, err: Option<ReadError>): Step {
    if line == [] && err.None? then
      if buf != [] then Return(Ok(buf)) else Again([])
    else if line != [] && |Append(buf, line)| > MAX_SSE_RECORD_BYTES then Return(Err(RecordTooLarge))
    else
      var grown := if line == [] then buf else Append(buf, line);
      if err.None? then Again(grown) else if grown != [] then Return(Ok(grown)) else Return(Err(err.value))
  }

  /** One record, from the state in which some lines of it are already buffered. */
  function NextRead(s: seq<byte>, first: bool, buf: seq<byte>, ending: ReadError): (r: (Result<seq<byte>, ReadError>, seq<byte>))
    ensures |r.1| <= |s| && (r.0.Ok? && buf == [] ==> |r.1| < |s|)
    decreases |s|
  {
    var (raw, err, rest) := LineRead(s, ending);
    match TakeLine(buf, if first then TrimBom(raw) else raw, err)
    case Return(r) => (r, rest)
    case Again(grown) => NextRead(rest, false, grown, ending)
  }

  /** Reading records until an error. */
  function Drain(s: seq<byte>, first: bool, ending: ReadError): (seq<Line>, ReadError)
    decreases |s|
  {
    var (r, rest) := NextRead(s, first, [], ending);
    match r
    case Err(e) => ([], e)
    case Ok(record) =>
      var (records, e) := Drain(rest, false, ending);
      ([record] + records, e)
  }

  class SseReader {
    var input: seq<byte>
    const ending: ReadError
    var buf: seq<byte>
    var firstLine: bool

    constructor (input: seq<byte>, ending: ReadError)
      ensures this.input == input && this.ending == ending && firstLine
    {
      this.input, this.ending, this.buf, this.firstLine := input, ending, [], true;
    }

    method ReadLine() returns (line: Line, err: Option<ReadError>)
      modifies this`input
      ensures (line, err, input) == LineRead(old(input), ending)
    {
      ghost var s := input;
      EolIsFirst(s);
      line := [];
      while input != []
        invariant |line| <= Eol(s) && |line| <= MAX_SSE_RECORD_BYTES && line == s[..|line|] && input == s[|line|..]
        decreases |input|
      {
        var b := input[0];
        assert b == s[|line|];
        input := input[1..];
        if b == LF {
          assert Eol(s) == |line|;
          return line, None;
        } else if b == CR {
          assert Eol(s) == |line|;
          if input != [] && input[0] == LF {
            input := input[1..];
          }
          return line, None;
        } else {
          assert |line| < Eol(s);
          if |line| >= MAX_SSE_RECORD_BYTES {
            return [], Some(RecordTooLarge);
          }
          line := line + [b];
        }
      }
      assert |line| == |s| && line == s;
      return line, Some(ending);
    }

    method Next() returns (r: Result<seq<byte>, ReadError>)
      modifies this
      ensures (r, input) == NextRead(old(input), old(firstLine), [], ending) && !firstLine
    {
      buf := [];
      while true
        invariant NextRead(input, firstLine, buf, ending) == NextRead(old(input), old(firstLine), [], ending)
        decreases |input|
      {
        var line, err := ReadLine();
        if firstLine {
          line := TrimBom(line);
          firstLine := false;
        }
        ghost var step := TakeLine(buf, line, err);
        if |line| == 0 && err.None? {
          if |buf| > 0 {
            assert step == Return(Ok(buf));
            return Ok(buf);
          }
          assert step == Again(buf);
          continue;
        }
        ghost var before := buf;
        if |line| > 0 {
          var extra := if |buf| > 0 then |line| + 1 else |line|;
          if |buf| + extra > MAX_SSE_RECORD_BYTES {
            assert step == Return(Err(RecordTooLarge));
            return Err(RecordTooLarge);
          }
          if |buf| > 0 {
            buf := buf + [LF];
          }
          buf := buf + line;
          assert buf == Append(before, line);
        }
        if err.Some? {
          if |buf| > 0 {
            assert step == Return(Ok(buf));
            return Ok(buf);
          }
          assert step == Return(Err(err.value));
          return Err(err.value);
        }
        assert step == Again(buf);
      }
    }
  }

  // ---- the reader returns the records, exactly when they fit ----

  lemma MergeParts(a: Line, b: Line, parts: seq<Line>)
    ensures Join([a, b] + parts) == Join([a + [LF] + b] + parts)
  {
    var two, one := [a, b] + parts, [a + [LF] + b] + parts;
    assert two[1..] == [b] + parts && one[1..] == parts && ([b] + parts)[1..] == parts;
    if parts != [] { assert a + [LF] + (b + [LF] + Join(parts)) == a + [LF] + b + [LF] + Join(parts); }
  }

  lemma RunCons(line: Line, tail: seq<Line>)
    requires line != []
    ensures RunLength([line] + tail) == 1 + RunLength(tail)
    ensures Records([line] + tail) == [Join([line] + tail[..RunLength(tail)])] + Records(tail[RunLength(tail)..])
  {
    var n := RunLength(tail);
    assert ([line] + tail)[1..] == tail;
    assert ([line] + tail)[..1 + n] == [line] + tail[..n] && ([line] + tail)[1 + n..] == tail[n..];
  }

  lemma SecondLine(a: Line, b: Line, tail: seq<Line>)
    requires a != [] && b != []
    ensures Records([a, b] + tail) == [Join([a, b] + tail[..RunLength(tail)])] + Records(tail[RunLength(tail)..])
  {
    var n := RunLength(tail);
    var rest := [b] + tail;
    RunCons(b, tail);
    RunCons(a, rest);
    assert rest[..1 + n] == [b] + tail[..n] && rest[1 + n..] == tail[n..];
    assert [a] + rest == [a, b] + tail && [a] + rest[..1 + n] == [a, b] + tail[..n];
  }

  lemma MergeLines(a: Line, b: Line, tail: seq<Line>)
    requires a != [] && b != []
    ensures Records([a, b] + tail) == Records([a + [LF] + b] + tail)
  {
    SecondLine(a, b, tail);
    RunCons(a + [LF] + b, tail);
    MergeParts(a, b, tail[..RunLength(tail)]);
  }

  lemma FirstRecord(line: Line, tail: seq<Line>)
    requires line != []
    ensures Records([line] + tail) != [] && line <= Records([line] + tail)[0]
    ensures tail != [] && tail[0] != [] ==> line != Records([line] + tail)[0]
    ensures tail == [] || tail[0] == [] ==> Records([line] + tail) == [line] + Records(tail)
  {
    var all := [line] + tail;
    var n := RunLength(all);
    assert all[1..] == tail && all[..n][0] == line;
    if tail == [] || tail[0] == [] {
      RunIs(all, 1);
      assert all[..1] == [line];
    }
  }

  /** What the reader still has to return: the buffered text is the start of the next record. */
  function Ahead(buf: seq<byte>, lines: seq<Line>): seq<Line> { if buf == [] then lines else [buf] + lines }

  ghost predicate Within(texts: seq<Line>) {
    forall i | 0 <= i < |texts| :: |texts[i]| <= MAX_SSE_RECORD_BYTES
  }

  lemma WithinCons(text: Line, texts: seq<Line>)
    ensures Within([text] + texts) <==> |text| <= MAX_SSE_RECORD_BYTES && Within(texts)
  {
    var all := [text] + texts;
    if Within(all) {
      assert all[0] == text;
      forall i | 0 <= i < |texts| ensures |texts[i]| <= MAX_SSE_RECORD_BYTES { assert all[i + 1] == texts[i]; }
    }
  }

  ghost predicate FitsFrom(s: seq<byte>, first: bool, buf: seq<byte>) {
    Within(Lines(s)) && Within(Records(Ahead(buf, StreamLines(s, first))))
  }

  /** Every line as sent and every record is within the limit. */
  ghost predicate Fits(s: seq<byte>, first: bool) { FitsFrom(s, first, []) }

  /** One read either returns the next record, or the error of the connection when there is none; or something does not
      fit, and it returns an error or a record cut short. */
  ghost predicate Outcome(r: Result<seq<byte>, ReadError>, ending: ReadError, records: seq<Line>, fits: bool,
                          later: seq<Line>, laterFits: bool) {
    match r
    case Ok(record) =>
      records != [] && if record == records[0] then later == records[1..] && (fits <==> laterFits) else !fits
    case Err(e) =>
      if e == ending then records == [] && fits else !fits
  }

  ghost predicate ReadsOne(s: seq<byte>, first: bool, buf: seq<byte>, ending: ReadError) {
    var (r, rest) := NextRead(s, first, buf, ending);
    Outcome(r, ending, Records(Ahead(buf, StreamLines(s, first))), FitsFrom(s, first, buf), Records(Lines(rest)), Fits(rest, false))
  }

  lemma BlankLine(buf: seq<byte>, tail: seq<Line>)
    ensures Records(Ahead(buf, [[]] + tail)) == (if buf == [] then [] else [buf]) + Records(tail)
  {
    assert ([[]] + tail)[1..] == tail;
    if buf != [] { FirstRecord(buf, [[]] + tail); }
  }

  lemma TextLine(buf: seq<byte>, line: Line, tail: seq<Line>)
    requires line != []
    ensures Records(Ahead(buf, [line] + tail)) == Records(Ahead(Append(buf, line), tail))
  {
    if buf != [] {
      assert [buf] + ([line] + tail) == [buf, line] + tail;
      MergeLines(buf, line, tail);
    }
  }

  lemma TerminatedLine(s: seq<byte>, first: bool, line: Line)
    requires Eol(s) < |s| && line == if first then TrimBom(s[..Eol(s)]) else s[..Eol(s)]
    ensures StreamLines(s, first) == [line] + Lines(AfterEol(s, Eol(s)))
  {
  }

  lemma KeepsReading(buf: seq<byte>, line: Line, grown: seq<byte>, tail: seq<Line>)
    requires TakeLine(buf, line, None) == Again(grown)
    ensures Records(Ahead(buf, [line] + tail)) == Records(Ahead(grown, tail))
  {
    if line == [] { BlankLine(buf, tail); } else { TextLine(buf, line, tail); }
  }

  /** A read that goes on is decided by the state it goes on from. */
  lemma GoesOn(s: seq<byte>, first: bool, buf: seq<byte>, ending: ReadError, line: Line, grown: seq<byte>)
    requires Eol(s) < |s| && Eol(s) <= MAX_SSE_RECORD_BYTES && line == if first then TrimBom(s[..Eol(s)]) else s[..Eol(s)]
    requires TakeLine(buf, line, None) == Again(grown) && ReadsOne(AfterEol(s, Eol(s)), false, grown, ending)
    ensures ReadsOne(s, first, buf, ending)
  {
    var rest := AfterEol(s, Eol(s));
    TerminatedLine(s, first, line);
    WithinCons(s[..Eol(s)], Lines(rest));
    KeepsReading(buf, line, grown, Lines(rest));
    assert NextRead(s, first, buf, ending) == NextRead(rest, false, grown, ending);
  }

  /** What is ahead when the reader returns on a line: the buffered record, or a record that is too long. */
  lemma Stops(buf: seq<byte>, line: Line, tail: seq<Line>)
    requires TakeLine(buf, line, None).Return? && |buf| <= MAX_SSE_RECORD_BYTES
    ensures var r, records := TakeLine(buf, line, None).r, Records(Ahead(buf, [line] + tail));
      if r.Ok? then records == [r.value] + Records(tail) && (Within(records) <==> Within(Records(tail)))
      else r.error == RecordTooLarge && !Within(records)
  {
    if line == [] {
      BlankLine(buf, tail);
      WithinCons(buf, Records(tail));
    } else {
      TextLine(buf, line, tail);
      FirstRecord(Append(buf, line), tail);
      var records := Records(Ahead(buf, [line] + tail));
      assert |records[0]| > MAX_SSE_RECORD_BYTES;
    }
  }

  lemma Returns(s: seq<byte>, first: bool, buf: seq<byte>, ending: ReadError, line: Line)
    requires Eol(s) < |s| && Eol(s) <= MAX_SSE_RECORD_BYTES && line == if first then TrimBom(s[..Eol(s)]) else s[..Eol(s)]
    requires |buf| <= MAX_SSE_RECORD_BYTES && ending != RecordTooLarge && TakeLine(buf, line, None).Return?
    ensures ReadsOne(s, first, buf, ending)
  {
    var rest := AfterEol(s, Eol(s));
    TerminatedLine(s, first, line);
    WithinCons(s[..Eol(s)], Lines(rest));
    Stops(buf, line, Lines(rest));
    assert NextRead(s, first, buf, ending) == (TakeLine(buf, line, None).r, rest);
  }

  lemma OversizeRead(s: seq<byte>, first: bool, buf: seq<byte>, ending: ReadError)
    requires Eol(s) > MAX_SSE_RECORD_BYTES
    ensures StreamLines(s, first)[0] != [] && !Within(Lines(s))
    ensures NextRead(s, first, buf, ending).0 == if buf == [] then Err(RecordTooLarge) else Ok(buf)
  {
    assert |Lines(s)[0]| > MAX_SSE_RECORD_BYTES;
    assert LineRead(s, ending) == ([], Some(RecordTooLarge), s[MAX_SSE_RECORD_BYTES + 1..]);
  }

  lemma OversizeLine(s: seq<byte>, first: bool, buf: seq<byte>, ending: ReadError)
    requires Eol(s) > MAX_SSE_RECORD_BYTES && ending != RecordTooLarge
    ensures ReadsOne(s, first, buf, ending)
  {
    OversizeRead(s, first, buf, ending);
    if buf != [] {
      FirstRecord(buf, StreamLines(s, first));
    }
  }

  /** A line over the limit cuts the record before it short: the reader hands out the part before that line as a record, and
      goes on inside the line, one byte after the limit. */
  lemma CutShort(a: Line, s: seq<byte>, first: bool, ending: ReadError)
    requires Plain(a) && a != [] && |a| <= MAX_SSE_RECORD_BYTES && !(first && BOM <= a) && Eol(s) > MAX_SSE_RECORD_BYTES
    ensures var read, sent := Drain(a + [LF] + s, first, ending).0, Records(StreamLines(a + [LF] + s, first));
      && read == [a] + Drain(s[4_194_305..], false, ending).0
      && sent != [] && a <= sent[0] && a != sent[0]
  {
    var all := a + [LF] + s;
    EolIs(all, |a|);
    assert all[..|a|] == a && AfterEol(all, |a|) == s;
    assert NextRead(all, first, [], ending) == NextRead(s, false, a, ending);
    assert NextRead(s, false, a, ending) == (Ok(a), s[4_194_305..]);
    OversizeRead(s, false, a, ending);
    assert StreamLines(all, first) == [a] + Lines(s);
    FirstRecord(a, Lines(s));
  }

  lemma NothingLeft()
    ensures Lines([]) == [[]] && Records([[]]) == [] && Fits([], false)
  {
    assert StreamLines([], false) == [[]];
  }

  /** What is ahead on the line that the end of the input cuts off. */
  lemma Ends(buf: seq<byte>, line: Line, ending: ReadError)
    requires |buf| <= MAX_SSE_RECORD_BYTES && ending != RecordTooLarge
    ensures var step, records := TakeLine(buf, line, Some(ending)), Records(Ahead(buf, [line]));
      match step
      case Again(_) => false
      case Return(Ok(record)) => records == [record] && Within(records)
      case Return(Err(e)) => if e == ending then records == [] else !Within(records)
  {
    assert [line] + [] == [line];
    if line == [] { BlankLine(buf, []); } else {
      TextLine(buf, line, []);
      FirstRecord(Append(buf, line), []);
      var records := Records(Ahead(buf, [line]));
      assert records == [Append(buf, line)] && records[0] == Append(buf, line);
    }
  }

  lemma LastRead(s: seq<byte>, first: bool, buf: seq<byte>, ending: ReadError, line: Line)
    requires Eol(s) == |s| <= MAX_SSE_RECORD_BYTES && line == if first then TrimBom(s) else s
    ensures StreamLines(s, first) == [line] && Within(Lines(s))
    ensures TakeLine(buf, line, Some(ending)).Return?
    ensures NextRead(s, first, buf, ending) == (TakeLine(buf, line, Some(ending)).r, [])
  {
    assert LineRead(s, ending) == (s, Some(ending), []);
  }

  lemma LastLine(s: seq<byte>, first: bool, buf: seq<byte>, ending: ReadError)
    requires Eol(s) == |s| <= MAX_SSE_RECORD_BYTES && ending != RecordTooLarge && |buf| <= MAX_SSE_RECORD_BYTES
    ensures ReadsOne(s, first, buf, ending)
  {
    var line := if first then TrimBom(s) else s;
    LastRead(s, first, buf, ending, line);
    Ends(buf, line, ending);
    NothingLeft();
  }

  lemma {:induction false} ReadOne(s: seq<byte>, first: bool, buf: seq<byte>, ending: ReadError)
    requires ending != RecordTooLarge && |buf| <= MAX_SSE_RECORD_BYTES
    ensures ReadsOne(s, first, buf, ending)
    decreases |s|
  {
    var n := Eol(s);
    if n > MAX_SSE_RECORD_BYTES {
      OversizeLine(s, first, buf, ending);
    } else if n == |s| {
      LastLine(s, first, buf, ending);
    } else {
      var line := if first then TrimBom(s[..n]) else s[..n];
      match TakeLine(buf, line, None)
      case Return(_) => Returns(s, first, buf, ending, line);
      case Again(grown) =>
        ReadOne(AfterEol(s, n), false, grown, ending);
        GoesOn(s, first, buf, ending, line, grown);
    }
  }

  /** Reading to the end returns exactly the maximal runs of non-empty lines and then the connection's own error, if and
      only if every line and every record fits the limit. */
  lemma {:induction false} ReadsExactlyTheRecords(s: seq<byte>, first: bool, ending: ReadError)
    requires ending != RecordTooLarge
    ensures Drain(s, first, ending) == (Records(StreamLines(s, first)), ending) <==> Fits(s, first)
    decreases |s|
  {
    ReadOne(s, first, [], ending);
    var (r, rest) := NextRead(s, first, [], ending);
    if r.Ok? {
      ReadsExactlyTheRecords(rest, false, ending);
      var records := Records(StreamLines(s, first));
      var (later, e) := Drain(rest, false, ending);
      assert ([r.value] + later)[0] == r.value && ([r.value] + later)[1..] == later;
      assert records == [records[0]] + records[1..];
    }
  }

  // ---- any line ending ----

  datatype Ending = Lf | CrLf | Cr

  function Bytes(e: Ending): seq<byte> {
    match e
    case Lf => [LF]
    case CrLf => [CR, LF]
    case Cr => [CR]
  }

  function Sent(lines: seq<(Line, Ending)>): seq<byte> {
    if lines == [] then [] else lines[0].0 + Bytes(lines[0].1) + Sent(lines[1..])
  }

  function Texts(lines: seq<(Line, Ending)>): (texts: seq<Line>)
    ensures |texts| == |lines| && forall i | 0 <= i < |lines| :: texts[i] == lines[i].0
  {
    seq(|lines|, i requires 0 <= i < |lines| => lines[i].0)
  }

  predicate Plain(line: Line) { forall i | 0 <= i < |line| :: !IsEol(line[i]) }

  /** The first line is ended by CR and the next is empty and ended by LF: the two endings read as one. */
  predicate MergesAtOnce(lines: seq<(Line, Ending)>) {
    |lines| > 1 && lines[0].1 == Cr && lines[1] == ([], Lf)
  }

  predicate Merges(lines: seq<(Line, Ending)>) {
    lines != [] && (MergesAtOnce(lines) || Merges(lines[1..]))
  }

  /** One line with its ending, whatever follows, unless the ending takes the next byte with it. */
  lemma OneLine(line: Line, e: Ending, rest: seq<byte>)
    requires Plain(line) && (e == Cr && rest != [] ==> rest[0] != LF)
    ensures Lines(line + Bytes(e) + rest) == [line] + Lines(rest)
  {
    var s := line + Bytes(e) + rest;
    EolIs(s, |line|);
    assert s[..|line|] == line && AfterEol(s, |line|) == rest;
  }

  lemma SentHead(lines: seq<(Line, Ending)>)
    requires lines != [] && Plain(lines[0].0)
    ensures Sent(lines) != [] && (Sent(lines)[0] == LF <==> lines[0] == ([], Lf))
  {
    if lines[0].0 != [] { assert Sent(lines)[0] == lines[0].0[0]; }
  }

  lemma SentStep(lines: seq<(Line, Ending)>)
    requires lines != [] && forall i | 0 <= i < |lines| :: Plain(lines[i].0)
    ensures Lines(Sent(lines)) == [lines[0].0] + Lines(Sent(if MergesAtOnce(lines) then lines[2..] else lines[1..]))
  {
    var (line, e) := lines[0];
    var tail := lines[1..];
    if tail != [] { SentHead(tail); }
    if MergesAtOnce(lines) {
      assert tail[1..] == lines[2..] && Sent(tail) == [LF] + Sent(lines[2..]);
      assert Sent(lines) == line + Bytes(CrLf) + Sent(lines[2..]);
      OneLine(line, CrLf, Sent(lines[2..]));
    } else {
      OneLine(line, e, Sent(tail));
    }
  }

  lemma SameTail(line: Line, a: seq<Line>, b: seq<Line>)
    ensures [line] + a == [line] + b <==> a == b
  {
    assert ([line] + a)[1..] == a && ([line] + b)[1..] == b;
  }

  lemma TextsCons(lines: seq<(Line, Ending)>)
    requires lines != []
    ensures Texts(lines) + [[]] == [lines[0].0] + (Texts(lines[1..]) + [[]])
  {
  }

  /** The lines come out as they were sent whatever the mix of line endings, unless two of them read as one. */
  lemma {:induction false} LineEndingsDoNotMatter(lines: seq<(Line, Ending)>)
    requires forall i | 0 <= i < |lines| :: Plain(lines[i].0)
    ensures Lines(Sent(lines)) == Texts(lines) + [[]] <==> !Merges(lines)
    ensures |Lines(Sent(lines))| <= |lines| + 1
    decreases |lines|
  {
    if lines != [] {
      SentStep(lines);
      if MergesAtOnce(lines) {
        LineEndingsDoNotMatter(lines[2..]);
        assert |Lines(Sent(lines))| < |Texts(lines) + [[]]|;
      } else {
        LineEndingsDoNotMatter(lines[1..]);
        TextsCons(lines);
        SameTail(lines[0].0, Lines(Sent(lines[1..])), Texts(lines[1..]) + [[]]);
      }
    }
  }

  // ---- writing records back ----

  predicate NoCr(s: seq<byte>) { forall i | 0 <= i < |s| :: s[i] != CR }

  /** A record as the reader returns it: non-empty lines joined by LF. */
  ghost predicate IsRecord(r: seq<byte>) {
    NoCr(r) && forall i | 0 <= i < |Lines(r)| :: Lines(r)[i] != []
  }

  function Written(records: seq<Line>): seq<byte> {
    if records == [] then [] else records[0] + [LF, LF] + Written(records[1..])
  }

  lemma {:induction false} WrittenSnoc(records: seq<Line>, record: Line)
    ensures Written(records + [record]) == Written(records) + record + [LF, LF]
  {
    if records == [] {
      assert [] + [record] == [record] && [record][1..] == [] && Written([record]) == record + [LF, LF] + [];
    } else {
      WrittenSnoc(records[1..], record);
      assert (records + [record])[1..] == records[1..] + [record];
    }
  }

  /** Writes a record to the client's side of the stream and restores the blank line after it. */
  method WriteRecord(w: seq<byte>, ghost records: seq<Line>, record: Line) returns (after: seq<byte>)
    requires w == Written(records)
    ensures after == Written(records + [record])
  {
    WrittenSnoc(records, record);
    after := w + record;
    after := after + [LF, LF];
  }

  /** The records read so far, with those still to come, are all of them. */
  ghost predicate Halfway(all: (seq<Line>, ReadError), records: seq<Line>, s: seq<byte>, first: bool, ending: ReadError) {
    all.0 == records + Drain(s, first, ending).0 && all.1 == Drain(s, first, ending).1
  }

  lemma ReadOneMore(all: (seq<Line>, ReadError), records: seq<Line>, s: seq<byte>, first: bool, ending: ReadError)
    requires Halfway(all, records, s, first, ending)
    ensures match NextRead(s, first, [], ending)
      case (Ok(record), rest) => Halfway(all, records + [record], rest, false, ending)
      case (Err(e), _) => all == (records, e)
  {
    var (r, rest) := NextRead(s, first, [], ending);
    if r.Ok? {
      var later := Drain(rest, false, ending).0;
      assert records + ([r.value] + later) == records + [r.value] + later;
    } else {
      assert records + [] == records;
    }
  }

  /** The pass-through loop: every record read is written, until reading fails or the stream is left for another reason. */
  method PassThrough(reader: SseReader) returns (w: seq<byte>, ghost records: seq<Line>, err: Option<ReadError>)
    modifies reader
    ensures w == Written(records)
    ensures var (all, e) := Drain(old(reader.input), old(reader.firstLine), reader.ending);
      if err.Some? then records == all && err.value == e else records <= all
  {
    w, records := [], [];
    ghost var all := Drain(reader.input, reader.firstLine, reader.ending);
    while true
      invariant w == Written(records)
      invariant Halfway(all, records, reader.input, reader.firstLine, reader.ending)
      decreases |reader.input|
    {
      ReadOneMore(all, records, reader.input, reader.firstLine, reader.ending);
      var r := reader.Next();
      match r {
        case Err(error) =>
          return w, records, Some(error);
        case Ok(record) =>
          w := WriteRecord(w, records, record);
          records := records + [record];
          var left: bool := *;
          if left { return w, records, None; }
      }
    }
  }

  lemma LfLine(line: Line, rest: seq<byte>)
    requires Plain(line)
    ensures Lines(line + [LF] + rest) == [line] + Lines(rest)
  {
    OneLine(line, Lf, rest);
  }

  lemma CutAt(a: seq<byte>, n: nat)
    requires n < |a|
    ensures a == a[..n] + [a[n]] + a[n + 1..]
  {
  }

  lemma CutLine(a: seq<byte>)
    requires NoCr(a) && Eol(a) < |a|
    ensures a == a[..Eol(a)] + [LF] + a[Eol(a) + 1..]
    ensures Lines(a) == [a[..Eol(a)]] + Lines(a[Eol(a) + 1..])
  {
    EolIsFirst(a);
    assert a[Eol(a)] == LF;
    CutAt(a, Eol(a));
  }

  lemma Regroup(a: seq<byte>, b: seq<byte>, c: seq<byte>, d: seq<byte>, e: seq<byte>)
    ensures (a + b + c) + d + e == a + b + (c + d + e)
  {
  }

  lemma Assoc(a: seq<Line>, b: seq<Line>, c: seq<Line>)
    ensures a + (b + c) == a + b + c
  {
  }

  lemma {:induction false} LinesAcross(a: seq<byte>, rest: seq<byte>)
    requires NoCr(a)
    ensures Lines(a + [LF] + rest) == Lines(a) + Lines(rest)
    decreases |a|
  {
    var n := Eol(a);
    EolIsFirst(a);
    if n == |a| {
      LfLine(a, rest);
    } else {
      var head, later := a[..n], a[n + 1..];
      CutLine(a);
      Regroup(head, [LF], later, [LF], rest);
      LfLine(head, later + [LF] + rest);
      LinesAcross(later, rest);
      Assoc([head], Lines(later), Lines(rest));
    }
  }

  lemma {:induction false} JoinLines(r: seq<byte>)
    requires NoCr(r)
    ensures Join(Lines(r)) == r
    decreases |r|
  {
    var n := Eol(r);
    if n < |r| {
      CutLine(r);
      JoinLines(r[n + 1..]);
      JoinCons(r[..n], Lines(r[n + 1..]));
    } else {
      assert Lines(r) == [r];
    }
  }

  lemma AppendKeepsRecord(buf: seq<byte>, line: Line)
    requires (buf == [] || IsRecord(buf)) && line != [] && Plain(line)
    ensures IsRecord(Append(buf, line))
  {
    EolIs(line, |line|);
    assert Lines(line) == [line];
    if buf != [] { LinesAcross(buf, line); }
  }

  /** Everything the reader returns, whatever it is fed, is a record within the limit. */
  lemma {:induction false} ReadsRecords(s: seq<byte>, first: bool, buf: seq<byte>, ending: ReadError)
    requires |buf| <= MAX_SSE_RECORD_BYTES && (buf == [] || IsRecord(buf))
    ensures var r := NextRead(s, first, buf, ending).0;
      r.Ok? ==> r.value != [] && IsRecord(r.value) && |r.value| <= MAX_SSE_RECORD_BYTES
    decreases |s|
  {
    var (raw, err, rest) := LineRead(s, ending);
    var line := if first then TrimBom(raw) else raw;
    EolIsFirst(s);
    assert Plain(line);
    if line != [] { AppendKeepsRecord(buf, line); }
    match TakeLine(buf, line, err)
    case Return(_) =>
    case Again(grown) => ReadsRecords(rest, false, grown, ending);
  }

  ghost predicate AllRecords(records: seq<Line>) {
    forall i | 0 <= i < |records| :: records[i] != [] && IsRecord(records[i]) && |records[i]| <= MAX_SSE_RECORD_BYTES
  }

  lemma {:induction false} DrainsRecords(s: seq<byte>, first: bool, ending: ReadError)
    ensures AllRecords(Drain(s, first, ending).0)
    decreases |s|
  {
    var (r, rest) := NextRead(s, first, [], ending);
    ReadsRecords(s, first, [], ending);
    if r.Ok? { DrainsRecords(rest, false, ending); }
  }

  lemma BlankThen(later: seq<byte>)
    ensures Lines([LF] + later) == [[]] + Lines(later)
  {
    LfLine([], later);
    assert [] + [LF] + later == [LF] + later;
  }

  lemma WrittenCons(r: seq<byte>, records: seq<Line>)
    ensures Written([r] + records) == r + [LF] + ([LF] + Written(records))
  {
    assert ([r] + records)[1..] == records;
  }

  lemma WrittenLines(r: seq<byte>, records: seq<Line>)
    requires NoCr(r)
    ensures Lines(Written([r] + records)) == Lines(r) + [[]] + Lines(Written(records))
  {
    var later := Written(records);
    WrittenCons(r, records);
    LinesAcross(r, [LF] + later);
    BlankThen(later);
    Assoc(Lines(r), [[]], Lines(later));
  }

  lemma {:induction false} RecordsAcross(lines: seq<Line>, rest: seq<Line>)
    ensures Records(lines + [[]] + rest) == Records(lines) + Records(rest)
    decreases |lines|
  {
    var all := lines + [[]] + rest;
    if lines == [] {
      assert all[1..] == rest;
    } else if lines[0] == [] {
      assert all[1..] == lines[1..] + [[]] + rest;
      RecordsAcross(lines[1..], rest);
    } else {
      var n := RunLength(lines);
      RunStops(lines);
      RunIs(all, n);
      assert all[..n] == lines[..n] && all[n..] == lines[n..] + [[]] + rest;
      RecordsAcross(lines[n..], rest);
    }
  }

  lemma OneRun(lines: seq<Line>)
    requires forall i | 0 <= i < |lines| :: lines[i] != []
    ensures Records(lines) == if lines == [] then [] else [Join(lines)]
  {
    RunIs(lines, |lines|);
    assert lines[..|lines|] == lines && lines[|lines|..] == [];
  }

  lemma OneMoreWritten(r: Line, tail: seq<Line>)
    requires r != [] && IsRecord(r) && |r| <= MAX_SSE_RECORD_BYTES
    requires Records(Lines(Written(tail))) == tail && Within(Lines(Written(tail)))
    ensures Records(Lines(Written([r] + tail))) == [r] + tail
    ensures Within(Lines(Written([r] + tail)))
  {
    var lines, rest := Lines(r), Lines(Written(tail));
    WrittenLines(r, tail);
    RecordsAcross(lines, rest);
    OneRun(lines);
    JoinLines(r);
    LinesWithin(r);
    WithinAcross(lines, rest);
  }

  lemma WithinAcross(a: seq<Line>, b: seq<Line>)
    requires Within(a) && Within(b)
    ensures Within(a + [[]] + b)
  {
  }

  lemma {:induction false} RecordsOfWritten(records: seq<Line>)
    requires AllRecords(records)
    ensures Records(Lines(Written(records))) == records && Within(Lines(Written(records)))
  {
    if records == [] {
      NothingLeft();
    } else {
      RecordsOfWritten(records[1..]);
      OneMoreWritten(records[0], records[1..]);
      assert records == [records[0]] + records[1..];
    }
  }

  lemma {:induction false} LinesWithin(r: seq<byte>)
    requires |r| <= MAX_SSE_RECORD_BYTES
    ensures Within(Lines(r))
    decreases |r|
  {
    if Eol(r) < |r| { LinesWithin(AfterEol(r, Eol(r))); }
  }

  lemma FirstLineBom(r: seq<byte>)
    requires NoCr(r)
    ensures BOM <= r <==> BOM <= Lines(r)[0]
    ensures BOM <= r ==> |TrimBom(Lines(r)[0])| == |Lines(r)[0]| - 3
  {
    assert Lines(r)[0] == r[..Eol(r)];
    EolIsFirst(r);
    if BOM <= r { assert r[0] == BOM[0] && r[1] == BOM[1] && r[2] == BOM[2]; }
  }

  lemma JoinCons(line: Line, lines: seq<Line>)
    ensures Join([line] + lines) == if lines == [] then line else line + [LF] + Join(lines)
  {
    assert ([line] + lines)[1..] == lines;
  }

  /** Losing the start of the first line, or all of it, changes the record. */
  lemma ShorterRecord(line: Line, shorter: Line, tail: seq<Line>)
    requires |shorter| < |line| && forall i | 0 <= i < |tail| :: tail[i] != []
    ensures Records([shorter] + tail) != [Join([line] + tail)]
    ensures |Join([line] + tail)| <= MAX_SSE_RECORD_BYTES ==> Within(Records([shorter] + tail))
  {
    JoinCons(line, tail);
    JoinCons(shorter, tail);
    if shorter == [] {
      assert ([shorter] + tail)[1..] == tail;
      OneRun(tail);
    } else {
      OneRun([shorter] + tail);
    }
  }

  /** What a byte order mark at the start of a record costs it. */
  lemma BomIsLost(r: seq<byte>)
    requires IsRecord(r) && BOM <= r && |r| <= MAX_SSE_RECORD_BYTES
    ensures Records(TrimFirst(Lines(r))) != [r] && Within(Records(TrimFirst(Lines(r))))
  {
    var line, tail := Lines(r)[0], Lines(r)[1..];
    assert Lines(r) == [line] + tail;
    JoinLines(r);
    FirstLineBom(r);
    ShorterRecord(line, TrimBom(line), tail);
  }

  lemma TrimAcross(lines: seq<Line>, a: seq<Line>, b: seq<Line>)
    requires lines != []
    ensures TrimFirst(lines + a + b) == TrimFirst(lines) + a + b
  {
  }

  lemma WrittenStream(r: seq<byte>, tail: seq<Line>)
    requires NoCr(r)
    ensures Records(StreamLines(Written([r] + tail), true)) == Records(TrimFirst(Lines(r))) + Records(Lines(Written(tail)))
  {
    WrittenLines(r, tail);
    var lines, rest := Lines(r), Lines(Written(tail));
    TrimAcross(lines, [[]], rest);
    RecordsAcross(TrimFirst(lines), rest);
  }

  lemma Reread(r: seq<byte>, tail: seq<Line>)
    requires IsRecord(r) && |r| <= MAX_SSE_RECORD_BYTES
    ensures var again := Records(TrimFirst(Lines(r))); (again == [r] <==> !(BOM <= r)) && Within(again)
  {
    FirstLineBom(r);
    if BOM <= r {
      BomIsLost(r);
    } else {
      assert TrimFirst(Lines(r)) == Lines(r);
      JoinLines(r);
      OneRun(Lines(r));
    }
  }

  /** Records written back and read again are the same records, if and only if the first does not start with a byte order
      mark. */
  lemma RewrittenRecordsReadBack(records: seq<Line>, ending: ReadError)
    requires AllRecords(records) && ending != RecordTooLarge
    ensures Drain(Written(records), true, ending) == (records, ending) <==> records == [] || !(BOM <= records[0])
  {
    ReadsExactlyTheRecords(Written(records), true, ending);
    RecordsOfWritten(records);
    if records == [] {
      NothingLeft();
    } else {
      var r, tail := records[0], records[1..];
      assert records == [r] + tail;
      RecordsOfWritten(tail);
      WrittenStream(r, tail);
      Reread(r, tail);
      SameFront(Records(TrimFirst(Lines(r))), [r], tail);
      assert Within(Records(TrimFirst(Lines(r))) + tail);
    }
  }

  lemma SameFront(a: seq<Line>, b: seq<Line>, c: seq<Line>)
    ensures a + c == b + c <==> a == b
  {
    if a + c == b + c { assert a == (a + c)[..|a|] && b == (b + c)[..|b|]; }
  }

  /** A pass-through stream that the client reads with the same rules gives it the records the gateway had read when it
      stopped, whatever the upstream sent, unless the first one starts with a second byte order mark. */
  lemma PassthroughKeepsRecords(s: seq<byte>, ending: ReadError, k: nat, clientEnding: ReadError)
    requires clientEnding != RecordTooLarge && k <= |Drain(s, true, ending).0|
    ensures var records := Drain(s, true, ending).0[..k];
      Drain(Written(records), true, clientEnding) == (records, clientEnding) <==> records == [] || !(BOM <= records[0])
  {
    DrainsRecords(s, true, ending);
    RewrittenRecordsReadBack(Drain(s, true, ending).0[..k], clientEnding);
  }
}
