/** Reading a 2xx stream to its end: when the reported usage may be charged exactly, and which usage that is. */
module StreamSettlement {
  import opened Int64
  import opened Canonical
  import opened Pricing
  import opened Settlement

  /** One turn of the reading loop as the environment decides it: a read error, an undecodable record, or a decoded
      record whose output reached the client or not. A stream that ends without an error turns EOF. */
  datatype Read = ReadError(canceled: bool) | Undecodable(canceled: bool) | Decoded(events: seq<Event>, written: bool)

  datatype Ending = Succeeded | ChannelFault | ClientGone

  predicate AllowedAfterFinalUsage(ev: Event) {
    match ev.kind
    case Ping => true
    case MessageStop => true
    case MessageDelta => ev.usageFinal && ev.usage.Some?
    case _ => false
  }

  function Larger(known: bool, cur: int64, new_: int64): int64 { if !known || new_ > cur then new_ else cur }

  function StickyCache(cur: int64, new_: int64): int64 {
    if new_ < 0 then -1 else if cur >= 0 && new_ > cur then new_ else cur
  }

  function AccumulateUsage(u: Usage, ev: Event): Usage {
    if ev.usage.None? then u
    else
      var n := ev.usage.value;
      var u1 := if n.inputKnown then u.(inputTokens := Larger(u.inputKnown, u.inputTokens, n.inputTokens), inputKnown := true) else u;
      var u2 := if n.outputKnown then u1.(outputTokens := Larger(u.outputKnown, u.outputTokens, n.outputTokens), outputKnown := true) else u1;
      var u3 := if n.totalKnown then u2.(reportedTotal := Larger(u.totalKnown, u.reportedTotal, n.reportedTotal), totalKnown := true) else u2;
      u3.(cacheCreation := StickyCache(u.cacheCreation, n.cacheCreation), cacheRead := StickyCache(u.cacheRead, n.cacheRead))
  }

  /** Final fields win; an output or total that no final event gave is dropped. */
  function UsageWithFinalAuthority(aggregate: Usage, final: Usage): Usage {
    var a := if final.inputKnown then aggregate.(inputTokens := final.inputTokens, inputKnown := true) else aggregate;
    var b := if final.outputKnown then a.(outputTokens := final.outputTokens, outputKnown := true)
             else a.(outputTokens := 0, outputKnown := false);
    if final.totalKnown then b.(reportedTotal := final.reportedTotal, totalKnown := true)
    else b.(reportedTotal := 0, totalKnown := false)
  }

  function Cleared(u: Usage): Usage { u.(inputKnown := false, outputKnown := false, totalKnown := false) }

  // ---- what a trace of events says ----

  function Aggregate(events: seq<Event>): Usage {
    if events == [] then NO_USAGE else AccumulateUsage(Aggregate(events[..|events| - 1]), events[|events| - 1])
  }

  function FinalOnly(events: seq<Event>): seq<Event> {
    if events == [] then []
    else FinalOnly(events[..|events| - 1]) + if events[|events| - 1].usageFinal then [events[|events| - 1]] else []
  }

  function MergedUsage(events: seq<Event>): Usage {
    UsageWithFinalAuthority(Aggregate(events), Aggregate(FinalOnly(events)))
  }

  function EventsOf(turns: seq<Read>): seq<Event> {
    if turns == [] then []
    else EventsOf(turns[..|turns| - 1]) + if turns[|turns| - 1].Decoded? then turns[|turns| - 1].events else []
  }

  ghost predicate HasKind(events: seq<Event>, kind: EventKind) { exists i :: 0 <= i < |events| && events[i].kind == kind }

  ghost predicate FinalSeen(events: seq<Event>) { exists i :: 0 <= i < |events| && events[i].usageFinal }

  /** After the first final usage only pings, repeated final usages and stops follow. */
  ghost predicate QuietTail(events: seq<Event>) {
    forall i, j | 0 <= i < j < |events| && events[i].usageFinal :: IsQuiet(events[j])
  }

  ghost predicate IsQuiet(ev: Event) {
    ev.kind == Ping || ev.kind == MessageStop || (ev.kind == MessageDelta && ev.usageFinal && ev.usage.Some?)
  }

  ghost predicate EmptyRecordAfterFinal(turns: seq<Read>) {
    exists j :: 0 <= j < |turns| && turns[j].Decoded? && turns[j].events == [] && FinalSeen(EventsOf(turns[..j]))
  }

  /** Delivered and free of errors and of the stop event. */
  ghost predicate Passed(r: Read) { r.Decoded? && r.written && !HasKind(r.events, ErrorEvent) && !HasKind(r.events, MessageStop) }

  ghost predicate Stopped(r: Read) { r.Decoded? && r.written && !HasKind(r.events, ErrorEvent) && HasKind(r.events, MessageStop) }

  /** The whole condition for an exact charge, on the trace up to and including the record with the stop event. */
  ghost predicate ExactUpTo(turns: seq<Read>, k: nat) {
    && k < |turns| && Stopped(turns[k]) && (forall j | 0 <= j < k :: Passed(turns[j]))
    && FinalSeen(EventsOf(turns[..k + 1])) && QuietTail(EventsOf(turns[..k + 1])) && !EmptyRecordAfterFinal(turns[..k + 1])
    && Determined(MergedUsage(EventsOf(turns[..k + 1])))
  }

  lemma AggregateSnoc(events: seq<Event>, ev: Event)
    ensures Aggregate(events + [ev]) == AccumulateUsage(Aggregate(events), ev)
    ensures FinalOnly(events + [ev]) == if ev.usageFinal then FinalOnly(events) + [ev] else FinalOnly(events)
  {
    assert (events + [ev])[..|events|] == events;
  }

  lemma TailSnoc(events: seq<Event>, ev: Event)
    ensures QuietTail(events + [ev]) <==> QuietTail(events) && (FinalSeen(events) ==> IsQuiet(ev))
    ensures FinalSeen(events + [ev]) <==> FinalSeen(events) || ev.usageFinal
  {
    var all := events + [ev];
    assert all[|events|] == ev && forall i | 0 <= i < |events| :: all[i] == events[i];
    if FinalSeen(events) && QuietTail(all) {
      var i :| 0 <= i < |events| && events[i].usageFinal;
      assert all[i].usageFinal && IsQuiet(all[|events|]);
    }
    if QuietTail(all) {
      forall i, j | 0 <= i < j < |events| && events[i].usageFinal ensures IsQuiet(events[j]) {
        assert all[i].usageFinal && IsQuiet(all[j]);
      }
    }
  }

  lemma EventsSnoc(turns: seq<Read>, k: nat)
    requires k < |turns| && turns[k].Decoded?
    ensures EventsOf(turns[..k + 1]) == EventsOf(turns[..k]) + turns[k].events
    ensures EmptyRecordAfterFinal(turns[..k + 1])
       <==> EmptyRecordAfterFinal(turns[..k]) || (turns[k].events == [] && FinalSeen(EventsOf(turns[..k])))
  {
    var all := turns[..k + 1];
    assert all[..k] == turns[..k];
    forall j | 0 <= j <= k ensures all[j] == turns[j] && all[..j] == turns[..j] {}
    forall j | 0 <= j < k ensures turns[..k][j] == turns[j] && turns[..k][..j] == turns[..j] {}
    if EmptyRecordAfterFinal(turns[..k]) {
      var j :| 0 <= j < k && turns[..k][j].Decoded? && turns[..k][j].events == [] && FinalSeen(EventsOf(turns[..k][..j]));
      assert all[j].Decoded? && all[j].events == [] && FinalSeen(EventsOf(all[..j]));
    }
    if turns[k].events == [] && FinalSeen(EventsOf(turns[..k])) {
      assert all[k].Decoded? && all[k].events == [] && FinalSeen(EventsOf(all[..k]));
    }
  }

  /** What the loop remembers: usage so far, final usage so far, flags. */
  datatype Tally = Tally(usage: Usage, finalUsage: Usage, finalSeen: bool, invalidated: bool)

  ghost predicate Tracks(t: Tally, events: seq<Event>, emptyAfterFinal: bool) {
    && t.usage == Aggregate(events) && t.finalUsage == Aggregate(FinalOnly(events))
    && t.finalSeen == FinalSeen(events)
    && t.invalidated == (!QuietTail(events) || emptyAfterFinal)
  }

  ghost function Counted(t: Tally, ev: Event): Tally {
    Tally(AccumulateUsage(t.usage, ev), if ev.usageFinal then AccumulateUsage(t.finalUsage, ev) else t.finalUsage,
          t.finalSeen || ev.usageFinal, t.invalidated || (t.finalSeen && !AllowedAfterFinalUsage(ev)))
  }

  lemma QuietIsAllowed(ev: Event)
    ensures IsQuiet(ev) <==> AllowedAfterFinalUsage(ev)
  {
  }

  lemma CountUsage(t: Tally, events: seq<Event>, ev: Event)
    requires t.usage == Aggregate(events) && t.finalUsage == Aggregate(FinalOnly(events))
    ensures Counted(t, ev).usage == Aggregate(events + [ev]) && Counted(t, ev).finalUsage == Aggregate(FinalOnly(events + [ev]))
  {
    AggregateSnoc(events, ev);
    if ev.usageFinal { AggregateSnoc(FinalOnly(events), ev); }
  }

  lemma TrackStep(t: Tally, events: seq<Event>, emptyAfterFinal: bool, ev: Event)
    requires Tracks(t, events, emptyAfterFinal)
    ensures Tracks(Counted(t, ev), events + [ev], emptyAfterFinal)
  {
    CountUsage(t, events, ev);
    TailSnoc(events, ev);
    QuietIsAllowed(ev);
    var next := Counted(t, ev);
    assert next.invalidated == (!QuietTail(events + [ev]) || emptyAfterFinal);
  }

  method CountEvents(events: seq<Event>, start: Tally, ghost before: seq<Event>, ghost emptyAfterFinal: bool)
    returns (t: Tally, stopped: bool, failed: bool)
    requires Tracks(start, before, emptyAfterFinal)
    ensures Tracks(t, before + events, emptyAfterFinal)
    ensures stopped == HasKind(events, MessageStop) && failed == HasKind(events, ErrorEvent)
  {
    t, stopped, failed := start, false, false;
    ghost var seen: seq<Event> := [];
    assert before + seen == before;
    for i := 0 to |events|
      invariant seen == events[..i] && Tracks(t, before + seen, emptyAfterFinal)
      invariant stopped == HasKind(seen, MessageStop) && failed == HasKind(seen, ErrorEvent)
    {
      var ev := events[i];
      ghost var next := Counted(t, ev);
      TrackStep(t, before + seen, emptyAfterFinal, ev);
      HasKindSnoc(seen, ev);
      assert before + seen + [ev] == before + (seen + [ev]);
      if t.finalSeen && !AllowedAfterFinalUsage(ev) {
        t := t.(invalidated := true);
      }
      t := t.(usage := AccumulateUsage(t.usage, ev));
      if ev.usageFinal {
        t := t.(finalSeen := true, finalUsage := AccumulateUsage(t.finalUsage, ev));
      }
      assert t == next;
      if ev.kind == MessageStop { stopped := true; }
      if ev.kind == ErrorEvent { failed := true; }
      seen := seen + [ev];
    }
    assert seen == events;
  }

  lemma HasKindSnoc(events: seq<Event>, ev: Event)
    ensures HasKind(events + [ev], MessageStop) <==> HasKind(events, MessageStop) || ev.kind == MessageStop
    ensures HasKind(events + [ev], ErrorEvent) <==> HasKind(events, ErrorEvent) || ev.kind == ErrorEvent
  {
    OneKindSnoc(events, ev, MessageStop);
    OneKindSnoc(events, ev, ErrorEvent);
  }

  lemma OneKindSnoc(events: seq<Event>, ev: Event, kind: EventKind)
    ensures HasKind(events + [ev], kind) <==> HasKind(events, kind) || ev.kind == kind
  {
    var all := events + [ev];
    assert all[|events|] == ev;
    if HasKind(events, kind) {
      var i :| 0 <= i < |events| && events[i].kind == kind;
      assert all[i].kind == kind;
    }
  }

  ghost predicate Exactly(turns: seq<Read>) { exists k: nat :: ExactUpTo(turns, k) }

  lemma ExactIsUnique(turns: seq<Read>, j: nat, k: nat)
    requires ExactUpTo(turns, j) && ExactUpTo(turns, k)
    ensures j == k
  {
  }

  lemma NotExact(turns: seq<Read>, i: nat)
    requires i <= |turns| && (forall j | 0 <= j < i :: Passed(turns[j]))
    requires i < |turns| ==> !Passed(turns[i]) && !ExactUpTo(turns, i)
    ensures !Exactly(turns)
  {
  }

  /** One decoded record: an empty one after a final usage already spoils exactness. */
  method CountTurn(turns: seq<Read>, i: nat, start: Tally) returns (t: Tally, stopped: bool, failed: bool)
    requires i < |turns| && turns[i].Decoded?
    requires Tracks(start, EventsOf(turns[..i]), EmptyRecordAfterFinal(turns[..i]))
    ensures Tracks(t, EventsOf(turns[..i + 1]), EmptyRecordAfterFinal(turns[..i + 1]))
    ensures stopped == HasKind(turns[i].events, MessageStop) && failed == HasKind(turns[i].events, ErrorEvent)
  {
    EventsSnoc(turns, i);
    t := start;
    if t.finalSeen && |turns[i].events| == 0 {
      t := t.(invalidated := true);
    }
    t, stopped, failed := CountEvents(turns[i].events, t, EventsOf(turns[..i]), EmptyRecordAfterFinal(turns[..i + 1]));
  }

  /** The first turn that does not simply pass. */
  ghost predicate StopsAt(turns: seq<Read>, k: nat) {
    k <= |turns| && (forall j | 0 <= j < k :: Passed(turns[j])) && (k < |turns| ==> !Passed(turns[k]))
  }

  /** The client has left: the turn fails on a request that is already canceled, or what it decoded to, without an error
      event, cannot be written. */
  ghost predicate HungUp(r: Read) {
    match r
    case ReadError(canceled) => canceled
    case Undecodable(canceled) => canceled
    case Decoded(events, written) => !written && !HasKind(events, ErrorEvent)
  }

  /** What has been counted when the loop ends on this turn. */
  ghost function Observed(turns: seq<Read>, k: nat): Usage
    requires k <= |turns|
  {
    if k == |turns| || !turns[k].Decoded? then Aggregate(EventsOf(turns[..k]))
    else if Stopped(turns[k]) then MergedUsage(EventsOf(turns[..k + 1]))
    else Aggregate(EventsOf(turns[..k + 1]))
  }

  ghost predicate SameCounts(a: Usage, b: Usage) {
    && a.inputTokens == b.inputTokens && a.outputTokens == b.outputTokens && a.reportedTotal == b.reportedTotal
    && a.cacheCreation == b.cacheCreation && a.cacheRead == b.cacheRead
  }

  /** The end of the stream at its turn k: exact and successful, left by the client, or the channel's fault; without an exact
      end everything counted so far is kept, but no count passes as known. */
  ghost predicate EndsAt(turns: seq<Read>, k: nat, settlement: Usage, ending: Ending) {
    && StopsAt(turns, k)
    && (ending == Succeeded <==> ExactUpTo(turns, k))
    && (ending == ClientGone <==> k < |turns| && HungUp(turns[k]))
    && SameCounts(settlement, Observed(turns, k))
    && (if ending == Succeeded then settlement == Observed(turns, k)
        else !settlement.inputKnown && !settlement.outputKnown && !settlement.totalKnown)
  }

  lemma StopIsUnique(turns: seq<Read>, j: nat, k: nat)
    requires StopsAt(turns, j) && StopsAt(turns, k)
    ensures j == k
  {
  }

  /** The decision after the stop event. */
  method Conclude(turns: seq<Read>, i: nat, t: Tally) returns (settlement: Usage, exact: bool)
    requires i < |turns| && Stopped(turns[i]) && forall j | 0 <= j < i :: Passed(turns[j])
    requires Tracks(t, EventsOf(turns[..i + 1]), EmptyRecordAfterFinal(turns[..i + 1]))
    ensures exact <==> ExactUpTo(turns, i)
    ensures settlement == if exact then Observed(turns, i) else Cleared(Observed(turns, i))
  {
    var usage := UsageWithFinalAuthority(t.usage, t.finalUsage);
    ReadyIffDetermined(usage);
    if !t.finalSeen || t.invalidated || !UsageReadyForExactSettlement(usage) {
      return Cleared(usage), false;
    }
    return usage, true;
  }

  /** The reading loop: it ends at the first turn that does not pass, and charges exactly iff the trace up to there allows
      it, with the merged usage of the whole trace. */
  method SettleStream(turns: seq<Read>) returns (settlement: Usage, ending: Ending, ghost last: nat)
    ensures EndsAt(turns, last, settlement, ending)
    ensures ending == Succeeded <==> Exactly(turns)
  {
    var t := Tally(NO_USAGE, NO_USAGE, false, false);
    var i := 0;
    while true
      invariant i <= |turns| && forall j | 0 <= j < i :: Passed(turns[j])
      invariant Tracks(t, EventsOf(turns[..i]), EmptyRecordAfterFinal(turns[..i]))
      decreases |turns| - i
    {
      if i == |turns| {
        NotExact(turns, i);
        return Cleared(t.usage), ChannelFault, i;
      }
      var read := turns[i];
      if read.ReadError? || read.Undecodable? {
        NotExact(turns, i);
        return Cleared(t.usage), if read.canceled then ClientGone else ChannelFault, i;
      }
      var stopped, failed;
      t, stopped, failed := CountTurn(turns, i, t);
      if !read.written || failed {
        NotExact(turns, i);
        return Cleared(t.usage), if failed then ChannelFault else ClientGone, i;
      }
      if stopped {
        break;
      }
      i := i + 1;
    }
    var exact;
    settlement, exact := Conclude(turns, i, t);
    if exact {
      return settlement, Succeeded, i;
    }
    NotExact(turns, i);
    return settlement, ChannelFault, i;
  }

  // ---- the merged usage is made of maxima ----

  ghost function Reports(events: seq<Event>): set<Usage> {
    set i | 0 <= i < |events| && events[i].usage.Some? :: events[i].usage.value
  }

  ghost function Inputs(us: set<Usage>): set<int64> { set u | u in us && u.inputKnown :: u.inputTokens }
  ghost function Outputs(us: set<Usage>): set<int64> { set u | u in us && u.outputKnown :: u.outputTokens }
  ghost function Totals(us: set<Usage>): set<int64> { set u | u in us && u.totalKnown :: u.reportedTotal }
  ghost function Creations(us: set<Usage>): set<int64> { set u | u in us :: u.cacheCreation }
  ghost function CacheReads(us: set<Usage>): set<int64> { set u | u in us :: u.cacheRead }

  lemma AddReport(us: set<Usage>, n: Usage)
    ensures Inputs(us + {n}) == Inputs(us) + if n.inputKnown then {n.inputTokens} else {}
    ensures Outputs(us + {n}) == Outputs(us) + if n.outputKnown then {n.outputTokens} else {}
    ensures Totals(us + {n}) == Totals(us) + if n.totalKnown then {n.reportedTotal} else {}
    ensures Creations(us + {n}) == Creations(us) + {n.cacheCreation}
    ensures CacheReads(us + {n}) == CacheReads(us) + {n.cacheRead}
  {
  }

  ghost predicate IsMaximum(v: int64, values: set<int64>) { v in values && forall x | x in values :: x <= v }

  /** The greatest cache count seen, zero without any, minus one for ever once a negative one was seen. */
  ghost predicate IsCacheCount(v: int64, values: set<int64>) {
    if exists x | x in values :: x < 0 then v == -1 else IsMaximum(v, values + {0})
  }

  lemma ReportsSnoc(events: seq<Event>, ev: Event)
    ensures Reports(events + [ev]) == Reports(events) + if ev.usage.Some? then {ev.usage.value} else {}
  {
    var all := events + [ev];
    assert all[|events|] == ev && forall i | 0 <= i < |events| :: all[i] == events[i];
    forall u | u in Reports(events) ensures u in Reports(all) {
      var i :| 0 <= i < |events| && events[i].usage == Some(u);
      assert all[i].usage == Some(u);
    }
  }

  ghost predicate KnownMaximum(known: bool, v: int64, values: set<int64>) {
    known == (values != {}) && if known then IsMaximum(v, values) else v == 0
  }

  ghost predicate AllMaxima(u: Usage, us: set<Usage>) {
    && KnownMaximum(u.inputKnown, u.inputTokens, Inputs(us))
    && KnownMaximum(u.outputKnown, u.outputTokens, Outputs(us))
    && KnownMaximum(u.totalKnown, u.reportedTotal, Totals(us))
    && IsCacheCount(u.cacheCreation, Creations(us)) && IsCacheCount(u.cacheRead, CacheReads(us))
  }

  lemma MaximumStep(known: bool, v: int64, values: set<int64>, n: int64)
    requires KnownMaximum(known, v, values)
    ensures KnownMaximum(true, Larger(known, v, n), values + {n})
  {
  }

  lemma CacheStep(v: int64, values: set<int64>, n: int64)
    requires IsCacheCount(v, values)
    ensures IsCacheCount(StickyCache(v, n), values + {n})
  {
    if exists x | x in values :: x < 0 {
      var x :| x in values && x < 0;
      assert x in values + {n};
    } else if n < 0 {
      assert n in values + {n};
    }
  }

  lemma AccumulatedFields(u: Usage, ev: Event)
    requires ev.usage.Some?
    ensures var n, r := ev.usage.value, AccumulateUsage(u, ev);
      && r.inputKnown == (u.inputKnown || n.inputKnown)
      && r.inputTokens == (if n.inputKnown then Larger(u.inputKnown, u.inputTokens, n.inputTokens) else u.inputTokens)
      && r.outputKnown == (u.outputKnown || n.outputKnown)
      && r.outputTokens == (if n.outputKnown then Larger(u.outputKnown, u.outputTokens, n.outputTokens) else u.outputTokens)
      && r.totalKnown == (u.totalKnown || n.totalKnown)
      && r.reportedTotal == (if n.totalKnown then Larger(u.totalKnown, u.reportedTotal, n.reportedTotal) else u.reportedTotal)
      && r.cacheCreation == StickyCache(u.cacheCreation, n.cacheCreation) && r.cacheRead == StickyCache(u.cacheRead, n.cacheRead)
  {
  }

  lemma FieldStep(known: bool, v: int64, values: set<int64>, reported: bool, n: int64)
    requires KnownMaximum(known, v, values)
    ensures KnownMaximum(known || reported, if reported then Larger(known, v, n) else v, values + if reported then {n} else {})
  {
    if reported { MaximumStep(known, v, values, n); } else { assert values + {} == values; }
  }

  lemma AccumulateKeepsMaxima(u: Usage, us: set<Usage>, ev: Event)
    requires AllMaxima(u, us) && ev.usage.Some?
    ensures AllMaxima(AccumulateUsage(u, ev), us + {ev.usage.value})
  {
    var n := ev.usage.value;
    AccumulatedFields(u, ev);
    AddReport(us, n);
    FieldStep(u.inputKnown, u.inputTokens, Inputs(us), n.inputKnown, n.inputTokens);
    FieldStep(u.outputKnown, u.outputTokens, Outputs(us), n.outputKnown, n.outputTokens);
    FieldStep(u.totalKnown, u.reportedTotal, Totals(us), n.totalKnown, n.reportedTotal);
    CacheStep(u.cacheCreation, Creations(us), n.cacheCreation);
    CacheStep(u.cacheRead, CacheReads(us), n.cacheRead);
  }

  lemma {:induction false} AggregateIsMaxima(events: seq<Event>)
    ensures AllMaxima(Aggregate(events), Reports(events))
  {
    if events == [] {
      assert Reports(events) == {};
    } else {
      var front, last := events[..|events| - 1], events[|events| - 1];
      AggregateIsMaxima(front);
      ReportsSnoc(front, last);
      assert front + [last] == events;
      if last.usage.Some? {
        AccumulateKeepsMaxima(Aggregate(front), Reports(front), last);
      } else {
        assert Reports(events) == Reports(front);
      }
    }
  }

  /** Output and total come from final events only; input prefers them; cache counts come from the whole stream. */
  lemma MergedUsageIsMaxima(events: seq<Event>)
    ensures var u, all, final := MergedUsage(events), Reports(events), Reports(FinalOnly(events));
      && KnownMaximum(u.outputKnown, u.outputTokens, Outputs(final))
      && KnownMaximum(u.totalKnown, u.reportedTotal, Totals(final))
      && KnownMaximum(u.inputKnown, u.inputTokens, if Inputs(final) != {} then Inputs(final) else Inputs(all))
      && IsCacheCount(u.cacheCreation, Creations(all)) && IsCacheCount(u.cacheRead, CacheReads(all))
  {
    AggregateIsMaxima(events);
    AggregateIsMaxima(FinalOnly(events));
    FinalReportsAreReports(events);
  }

  lemma {:induction false} FinalReportsAreReports(events: seq<Event>)
    ensures Reports(FinalOnly(events)) <= Reports(events)
  {
    if events != [] {
      var front, last := events[..|events| - 1], events[|events| - 1];
      FinalReportsAreReports(front);
      ReportsSnoc(front, last);
      ReportsSnoc(FinalOnly(front), last);
      assert front + [last] == events;
    }
  }

  // ---- what the stream finally costs ----

  /** Exactly charged streams pay the price of the merged usage unless that price overflows; every other 2xx ending
      pays exactly the frozen amount. */
  lemma StreamCharge(p: Pricing, model: string, amount: int64, turns: seq<Read>, k: nat, observed: Usage)
    requires Sellable(p, model)
    ensures SettlementCost(p, model, amount, Cleared(observed)).cost == amount
    ensures ExactUpTo(turns, k) ==>
      var u := MergedUsage(EventsOf(turns[..k + 1]));
      var c := SettlementCost(p, model, amount, u);
      && Determined(u) && c.input == InputOf(u) && c.output == OutputOf(u)
      && (c.complete <==> CanRoundUp(WorthOf(CheckedPolicy(p, model).value.price, u)))
      && (if c.complete then RoundsUp(c.cost, WorthOf(CheckedPolicy(p, model).value.price, u)) else c.cost == amount)
  {
    UnknownUsageChargesTheReservation(p, model, amount, Cleared(observed));
    if ExactUpTo(turns, k) {
      var u := MergedUsage(EventsOf(turns[..k + 1]));
      ChargeOfEveryReport(p, model, amount, u);
      ReadyIffDetermined(u);
      ReadyUsageIsNeverGuessed(p, model, amount, u);
    }
  }

  lemma ReadyUsageIsNeverGuessed(p: Pricing, model: string, amount: int64, u: Usage)
    requires UsageReadyForExactSettlement(u)
    ensures !SettlementCost(p, model, amount, u).complete ==> SettlementCost(p, model, amount, u).cost == amount
  {
    if 0 <= u.cacheCreation && 0 <= u.cacheRead && u.cacheCreation + u.cacheRead <= MAX_INT64 {
      TripleBounds(u.inputTokens, u.cacheCreation + u.cacheRead, u.outputTokens);
    }
    TripleBounds(u.cacheCreation, u.cacheRead, 0);
  }
}
