/** What a stream says beside its content, through both adapters: beginnings, finish reasons, usages, errors and ends. */
module StreamNotes {
  import opened Int64
  import opened Canonical
  import opened OpenAIUsage
  import opened OpenAIWire
  import opened OpenAIStreamDecoder
  import opened OpenAITrace
  import opened OpenAIStreamEncoder
  import opened Transcoding

  // ---- what the encoder tells its reader ----

  /** The notes of a stream without its beginning and heartbeats. */
  function Endings(notes: seq<Note>): seq<Note>
    decreases |notes|
  {
    if notes == [] then [] else Kept(notes[0]) + Endings(notes[1..])
  }

  function Kept(note: Note): seq<Note> { if note.Began? || note.Beat? then [] else [note] }

  /** A usage as an OpenAI reader gets it; one without any known count is not written. */
  function UsageNote(u: Usage): seq<Note> {
    if UsageToWire(u).Some? then [Reported(NoReason, UsageFromWire(UsageToWire(u)), true)] else []
  }

  /** What the reader is told: each stop reason as the format has it, errors and ends as they come, and once, with the first
      final usage, the usage accumulated so far. */
  function Told(u: Usage, sent: bool, notes: seq<Note>): seq<Note>
    decreases |notes|
  {
    if notes == [] then []
    else
      var rest := notes[1..];
      match notes[0]
      case Began(usage) => Told(MergeUsage(u, usage), sent, rest)
      case Beat => Told(u, sent, rest)
      case Reported(reason, usage, final) =>
        var now, sends := MergeUsage(u, usage), final && usage.Some? && !sent;
        (if reason == NoReason then [] else [Reported(FinishToCanonical(StopToFinish(reason)), None, false)])
        + (if sends then UsageNote(now) else []) + Told(now, sent || sends, rest)
      case _ => [notes[0]] + Told(u, sent, rest)
  }

  lemma {:induction false} EndingsConcat(a: seq<Note>, b: seq<Note>)
    ensures Endings(a + b) == Endings(a) + Endings(b)
    decreases |a|
  {
    if a == [] {
      assert a + b == b;
    } else {
      assert (a + b)[0] == a[0] && (a + b)[1..] == a[1..] + b;
      EndingsConcat(a[1..], b);
      assert Endings(a + b) == Kept(a[0]) + (Endings(a[1..]) + Endings(b));
    }
  }

  /** The endings of the records, one after the other. */
  function EndingOf(record: Record): seq<Note> {
    match record
    case ErrorRecord => [Fault]
    case DoneMark => [Ended]
    case ChunkRecord(chunk) => ChunkNotes(chunk)
    case _ => []
  }

  function EndingsOf(records: seq<Record>): seq<Note>
    decreases |records|
  {
    if records == [] then [] else EndingOf(records[0]) + EndingsOf(records[1..])
  }

  lemma OneEnding(note: Note)
    ensures Endings([note]) == Kept(note)
  {
    assert [note][1..] == [] && Kept(note) + [] == Kept(note);
  }

  lemma RecordEnding(began: bool, record: Record)
    ensures Endings(Noted(began, [record])) == EndingOf(record)
  {
    assert [record][1..] == [] && forall b :: Noted(b, []) == [];
    match record
    case Heartbeat => OneEnding(Beat);
    case ErrorRecord => OneEnding(Fault);
    case DoneMark => OneEnding(Ended);
    case ChunkRecord(chunk) =>
      var begins := if began then [] else [Began(None)];
      EndingsConcat(begins, ChunkNotes(chunk));
      if !began { OneEnding(Began(None)); }
      if ChunkNotes(chunk) != [] { OneEnding(ChunkNotes(chunk)[0]); }
      assert Noted(began, [record]) == begins + ChunkNotes(chunk);
    case _ =>
  }

  lemma {:induction false} RecordsEnd(began: bool, records: seq<Record>)
    ensures Endings(Noted(began, records)) == EndingsOf(records)
    decreases |records|
  {
    if records != [] {
      assert records == [records[0]] + records[1..];
      NotedCons(began, records[0], records[1..]);
      RecordEnding(began, records[0]);
      RecordsEnd(began || records[0].ChunkRecord?, records[1..]);
      EndingsConcat(Noted(began, [records[0]]), Noted(began || records[0].ChunkRecord?, records[1..]));
    }
  }

  lemma {:induction false} EndingsAcross(a: seq<Record>, b: seq<Record>)
    ensures EndingsOf(a + b) == EndingsOf(a) + EndingsOf(b)
    decreases |a|
  {
    if a == [] {
      assert a + b == b;
    } else {
      assert (a + b)[0] == a[0] && (a + b)[1..] == a[1..] + b;
      EndingsAcross(a[1..], b);
    }
  }

  lemma EndingOfOne(record: Record)
    ensures EndingsOf([record]) == EndingOf(record)
  {
    assert [record][1..] == [] && EndingOf(record) + [] == EndingOf(record);
  }

  lemma FinishIsTold(e: Enc, ev: Event)
    requires ev.kind == MessageDelta
    ensures var (e1, records) := EncodeStep(e, ev);
      var sends := ev.usageFinal && ev.usage.Some? && !e.usageSent;
      && e1.usage == MergeUsage(e.usage, ev.usage) && e1.usageSent == (e.usageSent || sends)
      && EndingsOf(records)
        == (if ev.stopReason == NoReason then [] else [Reported(FinishToCanonical(StopToFinish(ev.stopReason)), None, false)])
           + (if sends then UsageNote(e1.usage) else [])
  {
    var e1 := EncodeStep(e, ev).0;
    var finish := if ev.stopReason == NoReason then [] else [ChoiceChunk(WireDelta(NoContent, []), Some(StopToFinish(ev.stopReason)))];
    if ev.stopReason != NoReason { EndingOfOne(finish[0]); }
    if SendsUsage(e, ev) {
      EndingOfOne(UsageChunk(e1.usage));
      EndingsAcross(finish, [UsageChunk(e1.usage)]);
      UsageEnding(e1.usage);
    } else {
      assert EndingsOf(finish) + [] == EndingsOf(finish);
    }
  }

  lemma UsageEnding(u: Usage)
    ensures EndingOf(UsageChunk(u)) == UsageNote(u)
  {
  }

  lemma ReportIsTold(e: Enc, ev: Event, rest: seq<Note>)
    requires ev.kind == MessageDelta
    ensures var (e1, records) := EncodeStep(e, ev);
      Told(e.usage, e.usageSent, NoteOf(ev) + rest) == EndingsOf(records) + Told(e1.usage, e1.usageSent, rest)
  {
    FinishIsTold(e, ev);
    assert (NoteOf(ev) + rest)[0] == NoteOf(ev)[0] && (NoteOf(ev) + rest)[1..] == rest;
  }

  lemma QuietIsTold(e: Enc, ev: Event)
    requires NoteOf(ev) == []
    ensures var (e1, records) := EncodeStep(e, ev); EndingsOf(records) == [] && e1.usage == e.usage && e1.usageSent == e.usageSent
  {
    var records := EncodeStep(e, ev).1;
    if records != [] { EndingOfOne(records[0]); }
  }

  lemma MarkIsTold(e: Enc, ev: Event, rest: seq<Note>)
    requires NoteOf(ev) != [] && ev.kind != MessageDelta
    ensures var (e1, records) := EncodeStep(e, ev);
      Told(e.usage, e.usageSent, NoteOf(ev) + rest) == EndingsOf(records) + Told(e1.usage, e1.usageSent, rest)
  {
    var records := EncodeStep(e, ev).1;
    if records != [] { EndingOfOne(records[0]); }
    assert (NoteOf(ev) + rest)[0] == NoteOf(ev)[0] && (NoteOf(ev) + rest)[1..] == rest;
  }

  lemma TellOne(e: Enc, ev: Event, rest: seq<Note>)
    ensures var (e1, records) := EncodeStep(e, ev);
      Told(e.usage, e.usageSent, NoteOf(ev) + rest) == EndingsOf(records) + Told(e1.usage, e1.usageSent, rest)
  {
    if ev.kind == MessageDelta {
      ReportIsTold(e, ev, rest);
    } else if NoteOf(ev) != [] {
      MarkIsTold(e, ev, rest);
    } else {
      QuietIsTold(e, ev);
      assert NoteOf(ev) + rest == rest;
    }
  }

  /** Over every sequence of events, the records written tell their reader exactly that. */
  lemma {:induction false} EncodedIsTold(e: Enc, events: seq<Event>)
    ensures EndingsOf(EncodeAll(e, events).1) == Told(e.usage, e.usageSent, Notes(events))
    decreases |events|
  {
    if events != [] {
      var (e1, first) := EncodeStep(e, events[0]);
      TellOne(e, events[0], Notes(events[1..]));
      EncodedIsTold(e1, events[1..]);
      EndingsAcross(first, EncodeAll(e1, events[1..]).1);
    }
  }

  // ---- the usage accumulated ----

  function MergeAll(u: Usage, reports: seq<Usage>): Usage {
    if reports == [] then u else MergeUsage(MergeAll(u, reports[..|reports| - 1]), Some(reports[|reports| - 1]))
  }

  /** The value of a count is the one reported last, if it was reported at all. */
  ghost predicate LastWins(known: bool, v: int64, known0: bool, v0: int64, reported: seq<(bool, int64)>) {
    if reported == [] then known == known0 && v == v0
    else
      var last := reported[|reported| - 1];
      if last.0 then known && v == last.1 else LastWins(known, v, known0, v0, reported[..|reported| - 1])
  }

  ghost predicate Greatest(v: int64, v0: int64, vs: seq<int64>) {
    (v == v0 || v in vs) && v0 <= v && forall i | 0 <= i < |vs| :: vs[i] <= v
  }

  lemma LastSnoc(known: bool, v: int64, known0: bool, v0: int64, reported: seq<(bool, int64)>, k: bool, n: int64)
    requires LastWins(known, v, known0, v0, reported)
    ensures LastWins(k || known, if k then n else v, known0, v0, reported + [(k, n)])
  {
    assert (reported + [(k, n)])[..|reported|] == reported;
  }

  lemma GreatestSnoc(v: int64, v0: int64, vs: seq<int64>, n: int64)
    requires Greatest(v, v0, vs)
    ensures Greatest(if n > v then n else v, v0, vs + [n])
  {
    assert (vs + [n])[|vs|] == n;
  }

  function Inputs(rs: seq<Usage>): seq<(bool, int64)> {
    if rs == [] then [] else Inputs(rs[..|rs| - 1]) + [(rs[|rs| - 1].inputKnown, rs[|rs| - 1].inputTokens)]
  }

  function Outputs(rs: seq<Usage>): seq<(bool, int64)> {
    if rs == [] then [] else Outputs(rs[..|rs| - 1]) + [(rs[|rs| - 1].outputKnown, rs[|rs| - 1].outputTokens)]
  }

  function Totals(rs: seq<Usage>): seq<(bool, int64)> {
    if rs == [] then [] else Totals(rs[..|rs| - 1]) + [(rs[|rs| - 1].totalKnown, rs[|rs| - 1].reportedTotal)]
  }

  function Creations(rs: seq<Usage>): seq<int64> {
    if rs == [] then [] else Creations(rs[..|rs| - 1]) + [rs[|rs| - 1].cacheCreation]
  }

  function CacheReads(rs: seq<Usage>): seq<int64> {
    if rs == [] then [] else CacheReads(rs[..|rs| - 1]) + [rs[|rs| - 1].cacheRead]
  }

  lemma MergedFields(u: Usage, n: Usage)
    ensures var m := MergeUsage(u, Some(n));
      && m.inputKnown == (n.inputKnown || u.inputKnown) && m.inputTokens == (if n.inputKnown then n.inputTokens else u.inputTokens)
      && m.outputKnown == (n.outputKnown || u.outputKnown) && m.outputTokens == (if n.outputKnown then n.outputTokens else u.outputTokens)
      && m.totalKnown == (n.totalKnown || u.totalKnown) && m.reportedTotal == (if n.totalKnown then n.reportedTotal else u.reportedTotal)
      && m.cacheCreation == (if n.cacheCreation > u.cacheCreation then n.cacheCreation else u.cacheCreation)
      && m.cacheRead == (if n.cacheRead > u.cacheRead then n.cacheRead else u.cacheRead)
  {
  }

  lemma {:induction false} MergedCaches(u: Usage, rs: seq<Usage>)
    ensures Greatest(MergeAll(u, rs).cacheCreation, u.cacheCreation, Creations(rs))
    ensures Greatest(MergeAll(u, rs).cacheRead, u.cacheRead, CacheReads(rs))
  {
    if rs != [] {
      var front, n := rs[..|rs| - 1], rs[|rs| - 1];
      var m := MergeAll(u, front);
      MergedCaches(u, front);
      MergedFields(m, n);
      GreatestSnoc(m.cacheCreation, u.cacheCreation, Creations(front), n.cacheCreation);
      GreatestSnoc(m.cacheRead, u.cacheRead, CacheReads(front), n.cacheRead);
    }
  }

  lemma {:induction false} MergedCounts(u: Usage, rs: seq<Usage>)
    ensures var m := MergeAll(u, rs);
      && LastWins(m.inputKnown, m.inputTokens, u.inputKnown, u.inputTokens, Inputs(rs))
      && LastWins(m.outputKnown, m.outputTokens, u.outputKnown, u.outputTokens, Outputs(rs))
      && LastWins(m.totalKnown, m.reportedTotal, u.totalKnown, u.reportedTotal, Totals(rs))
  {
    if rs != [] {
      var front, n := rs[..|rs| - 1], rs[|rs| - 1];
      var m := MergeAll(u, front);
      MergedCounts(u, front);
      MergedFields(m, n);
      LastSnoc(m.inputKnown, m.inputTokens, u.inputKnown, u.inputTokens, Inputs(front), n.inputKnown, n.inputTokens);
      LastSnoc(m.outputKnown, m.outputTokens, u.outputKnown, u.outputTokens, Outputs(front), n.outputKnown, n.outputTokens);
      LastSnoc(m.totalKnown, m.reportedTotal, u.totalKnown, u.reportedTotal, Totals(front), n.totalKnown, n.reportedTotal);
    }
  }

  /** Of input, output and total the last report counts, of the cache counts the greatest. */
  lemma MergedReports(u: Usage, rs: seq<Usage>)
    ensures var m := MergeAll(u, rs);
      && LastWins(m.inputKnown, m.inputTokens, u.inputKnown, u.inputTokens, Inputs(rs))
      && LastWins(m.outputKnown, m.outputTokens, u.outputKnown, u.outputTokens, Outputs(rs))
      && LastWins(m.totalKnown, m.reportedTotal, u.totalKnown, u.reportedTotal, Totals(rs))
      && Greatest(m.cacheCreation, u.cacheCreation, Creations(rs)) && Greatest(m.cacheRead, u.cacheRead, CacheReads(rs))
  {
    MergedCounts(u, rs);
    MergedCaches(u, rs);
  }

  // ---- from an Anthropic upstream to an OpenAI client ----

  /** What an Anthropic message notes: a stop reason ends it, and only with one its usage is final. */
  function WireNote(m: Message): seq<Note> {
    match m
    case WireStart(usage) => [Began(usage)]
    case WireMessageDelta(part, usage) =>
      var stop := if part.Some? then part.value.stopReason else "";
      [Reported(if stop == "" then NoReason
                else if stop == "max_tokens" then MaxTokens
                else if stop == "tool_use" then ToolCalls
                else if stop == "stop_sequence" then StopSequence
                else EndTurn, usage, stop != "" && usage.Some?)]
    case WireStop => [Ended]
    case WirePing => [Beat]
    case WireError => [Fault]
    case _ => []
  }

  function WireNotes(stream: seq<Message>): seq<Note>
    decreases |stream|
  {
    if stream == [] then [] else WireNote(stream[0]) + WireNotes(stream[1..])
  }

  lemma MessageIsNoted(types: map<int, BlockType>, m: Message)
    requires !m.WireMalformed?
    ensures DecodeMessage(types, m).1.Ok? && Notes(DecodeMessage(types, m).1.value) == WireNote(m)
  {
    var events := DecodeMessage(types, m).1.value;
    if events != [] { OneNote(events[0]); }
  }

  lemma MessageIsTold(types: map<int, BlockType>, e: Enc, m: Message, rest: seq<Note>)
    requires !m.WireMalformed?
    ensures var (e1, records) := EncodeAll(e, DecodeMessage(types, m).1.value);
      Told(e.usage, e.usageSent, WireNote(m) + rest) == EndingsOf(records) + Told(e1.usage, e1.usageSent, rest)
  {
    MessageIsNoted(types, m);
    var events := DecodeMessage(types, m).1.value;
    if events == [] {
      assert [] + rest == rest;
    } else {
      EncodeOne(e, events[0]);
      OneNote(events[0]);
      TellOne(e, events[0], rest);
    }
  }

  /** Every stream without malformed records is transcoded into records that tell the client its stop reasons, its errors and
      ends, and once, with the first stop reason that comes with a usage, the usage reported so far. */
  lemma {:induction false} TranscodedIsTold(types: map<int, BlockType>, e: Enc, stream: seq<Message>)
    requires forall i | 0 <= i < |stream| :: !stream[i].WireMalformed?
    ensures EndingsOf(Transcode(types, e, stream)) == Told(e.usage, e.usageSent, WireNotes(stream))
    decreases |stream|
  {
    if stream != [] {
      var (types1, r) := DecodeMessage(types, stream[0]);
      var (e1, records) := EncodeAll(e, r.value);
      MessageIsTold(types, e, stream[0], WireNotes(stream[1..]));
      TranscodedIsTold(types1, e1, stream[1..]);
      EndingsAcross(records, Transcode(types1, e1, stream[1..]));
    }
  }

  /** So a client that reads the transcoded stream, walking its open calls in any order, is told exactly that. */
  lemma ClientIsTold(stream: seq<Message>, turns: seq<Turn>)
    requires forall i | 0 <= i < |stream| :: !stream[i].WireMalformed?
    requires RecordsOf(turns) == Transcode(map[], NEW_ENCODER, stream)
    ensures Run(NEW_DECODER, turns).Ok?
    ensures Endings(Notes(Run(NEW_DECODER, turns).value.1)) == Told(NO_USAGE, false, WireNotes(stream))
  {
    TranscodedIsAccepted(stream, turns);
    AcceptedStreamsReport(turns);
    RecordsEnd(false, RecordsOf(turns));
    TranscodedIsTold(map[], NEW_ENCODER, stream);
  }
}
