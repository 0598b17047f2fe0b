/** The forwarding code itself: the candidate loop, one attempt and the settlement of a 2xx, written as in the gateway
    and proved to take only steps of the request protocol. Whatever the environment decides is an arbitrary value;
    before each ledger call and each send any number of steps of other processes may happen. */
module Forwarder {
  import opened Int64
  import opened Canonical
  import opened Ledger
  import opened Pricing
  import opened Settlement
  import opened Protocol
  import opened StreamSettlement
  import CircuitBreaker

  datatype OutcomeKind = SuccessOutcome | ClientError | ChannelError | Neutral

  datatype TryOutcome = TryOutcome(kind: OutcomeKind, settled: bool, consumed: bool, committed: bool)

  /** What a 2xx answer turns out to be: a whole response, parsed or not, or a stream, which cannot be served without a
      flushable connection. */
  datatype Body = Parsed(usage: Usage) | Unparsed | Unflushable | Streamed(turns: seq<Read>)

  /** How one attempt went; `gone` says that the client had canceled when the failed send was looked at. */
  datatype Attempt =
    | Abandoned                                                             // the client had canceled before
    | Unbuilt
    | Unmarked(released: bool)
    | Attempted(outcome: Outcome, gone: bool, released: bool, body: Body)

  /** A whole response, or a stream that came to its exact end. */
  ghost predicate Served(how: Attempt) {
    && how.Attempted? && Success(how.outcome)
    && (how.body.Parsed? || how.body.Unparsed? || (how.body.Streamed? && Exactly(how.body.turns)))
  }

  /** The upstream refused the request itself. */
  ghost predicate RefusedRequest(how: Attempt) {
    how.Attempted? && how.released && how.outcome.Answered? && how.outcome.status in {400, 402, 404, 405, 413, 415, 422}
  }

  /** The attempt ended on the client's side. */
  ghost predicate ClientLeft(how: Attempt) {
    || how.Abandoned?
    || (how.Attempted? && !how.outcome.Answered? && how.gone)
    || (how.Attempted? && Success(how.outcome)
        && (how.body.Unflushable? || (how.body.Streamed? && exists k: nat :: HangsUpAt(how.body.turns, k))))
  }

  ghost predicate HangsUpAt(turns: seq<Read>, k: nat) { StopsAt(turns, k) && k < |turns| && HungUp(turns[k]) }

  ghost predicate KindFits(kind: OutcomeKind, how: Attempt) {
    && (kind == SuccessOutcome <==> Served(how))
    && (kind == ClientError <==> RefusedRequest(how))
    && (kind == Neutral <==> ClientLeft(how))
  }

  /** The loop goes on to the next candidate: nothing was sent, or what was sent was given back, and it was the channel's fault. */
  ghost predicate GoesOn(how: Attempt) {
    match how
    case Abandoned => false
    case Unbuilt => true
    case Unmarked(released) => released
    case Attempted(outcome, gone, released, _) =>
      released && match outcome
                  case NotDialed => !gone
                  case NetworkError => false
                  case Answered(status) => status in {401, 403, 429}
  }

  /** Every attempt but the last lets the loop go on, and the last one does unless it ended the loop. */
  ghost predicate Onward(attempts: seq<Attempt>, ended: bool) {
    && (ended ==> attempts != [])
    && forall k | 0 <= k < |attempts| :: GoesOn(attempts[k]) <==> !(ended && k == |attempts| - 1)
  }

  lemma OnwardGrows(before: seq<Attempt>, after: seq<Attempt>, left: bool)
    requires Onward(before, false)
    requires after == before || (|after| == |before| + 1 && before <= after)
    requires left <==> |after| > |before| && !GoesOn(after[|after| - 1])
    ensures Onward(after, left)
  {
  }

  /** The kind that a 2xx answer alone decides. */
  ghost predicate AnswerFits(kind: OutcomeKind, body: Body) {
    && kind != ClientError
    && (kind == SuccessOutcome <==> body.Parsed? || body.Unparsed? || (body.Streamed? && Exactly(body.turns)))
    && (kind == Neutral <==> body.Unflushable? || (body.Streamed? && exists k: nat :: HangsUpAt(body.turns, k)))
  }

  lemma AnswerIsKind(kind: OutcomeKind, outcome: Outcome, body: Body)
    requires Success(outcome) && AnswerFits(kind, body)
    ensures KindFits(kind, Attempted(outcome, false, false, body))
  {
  }

  /** What the breaker of a channel learns: nothing from a client that left, a success from an answer served or a request
      refused, a failure from everything else. */
  ghost predicate VerdictFits(v: CircuitBreaker.Verdict, how: Attempt) {
    && (v == CircuitBreaker.Neutral <==> ClientLeft(how))
    && (v == CircuitBreaker.Success <==> Served(how) || RefusedRequest(how))
  }

  /** The usage a 2xx is settled with. */
  ghost predicate Yields(body: Body, u: Usage) {
    match body
    case Parsed(usage) => u == usage
    case Streamed(turns) => exists k: nat, ending :: EndsAt(turns, k, u, ending)
    case _ => u == NO_USAGE
  }

  ghost predicate OrZero(v: int64, count: int64) { if count < 0 then v == 0 else v == count }

  /** The consumption carries the charge of this usage: cost, flags, the counts charged, and the cache and total counts
      reported, negative ones as zero. */
  ghost predicate Charges(p: Pricing, res: Reservation, c: Consumption, u: Usage) {
    var x := SettlementCost(p, res.model, res.amount, u);
    && c.reservationId == res.id && c.cost == x.cost && c.complete == x.complete && c.estimated == x.estimated
    && OrZero(c.input, x.input) && OrZero(c.output, x.output)
    && OrZero(c.creation, u.cacheCreation) && OrZero(c.read, u.cacheRead) && OrZero(c.reportedTotal, u.reportedTotal)
  }

  function SafeTokenValue(value: int64): int64 { if value < 0 then 0 else value }

  /** The recorded fact: observed counts, negative ones as zero, and the charge. */
  function ConsumptionOf(res: Reservation, channel: string, u: Usage, charge: Charge, now: int): Consumption {
    Consumption(res.id, channel, SafeTokenValue(charge.input), SafeTokenValue(charge.output),
                SafeTokenValue(u.cacheCreation), SafeTokenValue(u.cacheRead), SafeTokenValue(u.reportedTotal),
                charge.cost, charge.complete, charge.estimated, now)
  }

  class Forwarder {
    const pricing: Pricing
    const job: Job
    var book: Book
    var sends: seq<Sent>
    const breakers: seq<CircuitBreaker.Breaker>
    ghost var issued: seq<CircuitBreaker.BreakerPermit>
    ghost var attempts: seq<Attempt>
    ghost var reported: Usage
    const streaming: bool
    ghost const start: World
    ghost var pc: PC
    ghost var acts: seq<Action>

    constructor (pricing: Pricing, job: Job, streaming: bool, breakers: seq<CircuitBreaker.Breaker>, book: Book)
      requires Initial(job, World(book, Trying(0), [])) && |breakers| == |job.candidates|
      ensures this.job == job && this.pricing == pricing && this.breakers == breakers && this.book == book
      ensures Tracked() && pc == Trying(0) && sends == [] && issued == [] && attempts == []
    {
      this.pricing, this.job, this.streaming, this.breakers, this.book, this.sends := pricing, job, streaming, breakers, book, [];
      this.issued, this.attempts, this.reported := [], [], NO_USAGE;
      this.start := World(book, Trying(0), []);
      this.pc, this.acts := Trying(0), [];
    }

    ghost function Now(): World
      reads `book, `pc, `sends
    {
      World(book, pc, sends)
    }

    /** Everything so far is a run of the protocol from a fresh reservation, with every 2xx charged as billing does. */
    ghost predicate Tracked()
      reads `book, `pc, `sends, `acts
    {
      Initial(job, start) && AllAdmissible(job, acts) && AllBilled(pricing, job, acts) && Now() == Protocol.Run(job, start, acts)
    }

    /** Adds the request step just carried out to the history. */
    ghost method Advance(before: World, e: Env)
      requires Initial(job, start) && AllAdmissible(job, acts) && AllBilled(pricing, job, acts)
      requires before == Protocol.Run(job, start, acts) && (Success(e.outcome) ==> Billed(pricing, job, e.charge))
      requires book == Next(job, before, e).book && sends == Next(job, before, e).sends
      modifies `pc, `acts
      ensures Tracked() && pc == Next(job, before, e).pc && acts == old(acts) + [Request(e)]
    {
      pc := Next(job, before, e).pc;
      assert (acts + [Request(e)])[..|acts|] == acts;
      acts := acts + [Request(e)];
    }

    /** Other processes run for a while. */
    method Interfere()
      requires Tracked()
      modifies `book, `acts
      ensures Tracked() && old(acts) <= acts
    {
      var more: bool := *;
      var steps: nat := *;
      while more && steps > 0
        invariant Tracked() && old(acts) <= acts
        decreases steps
      {
        var op: Op := *;
        if Admissible(job, Others(op)) {
          book := Apply(book, op).0;
          assert (acts + [Others(op)])[..|acts|] == acts;
          acts := acts + [Others(op)];
        }
        more := *;
        steps := steps - 1;
      }
    }

    /** Other requests use the breakers of the candidates. */
    method Traffic()
      modifies breakers
    {
      var steps: nat := *;
      while steps > 0 && |breakers| > 0
        decreases steps
      {
        var k: nat, generation: nat, v: CircuitBreaker.Verdict, now: int := *, *, *, *;
        var breaker := breakers[k % |breakers|];
        var admits: bool := *;
        if admits {
          var permit := breaker.Admit(now);
        } else {
          breaker.Record(generation, v, now);
        }
        steps := steps - 1;
      }
    }

    /** Every permit issued so far has been resolved, first of all with the verdict that its own attempt calls for. */
    ghost predicate AllResolved()
      reads `issued, `attempts, issued
    {
      && |issued| == |attempts|
      && forall k | 0 <= k < |issued| :: issued[k].used && issued[k].verdict.Some? && VerdictFits(issued[k].verdict.value, attempts[k])
    }

    /** The last send, when it was answered 2xx, is charged for the usage that its answer reported. */
    ghost predicate Priced()
      reads `sends, `attempts, `reported
    {
      sends != [] && Success(Last(sends).outcome) ==>
        && attempts != [] && var how := attempts[|attempts| - 1];
        how.Attempted? && Yields(how.body, reported) && Charges(pricing, job.res, Last(sends).charge, reported)
    }

    ghost function Choice(fault: Fault, now: int): Env {
      Env(false, true, true, fault, NotDialed, NOTHING_CONSUMED, now)
    }

    method MarkInFlight(ghost i: nat, channel: string) returns (ok: bool)
      requires Tracked() && pc == Marking(i) && i < |job.candidates| && channel == job.candidates[i]
      modifies `book, `pc, `acts
      ensures Tracked() && pc == if ok then Sending(i) else Unmarking(i)
    {
      Interfere();
      var fault: Fault := *;
      var now: int := *;
      ghost var before := Now();
      var (b, reply) := Call(book, OpMark(job.res.id, channel, now), fault);
      book := b;
      Advance(before, Choice(fault, now));
      return reply == Done;
    }

    method ReleaseUnsent(ghost i: nat) returns (ok: bool)
      requires Tracked() && pc == Unmarking(i)
      modifies `book, `pc, `acts
      ensures Tracked() && pc == if ok then Trying(i + 1) else Leaving(true, false)
    {
      Interfere();
      var fault: Fault := *;
      ghost var before := Now();
      var (b, reply) := Call(book, OpRelease(job.res.id), fault);
      book := b;
      Advance(before, Choice(fault, 0));
      return reply == Done;
    }

    method ReleaseRejected(ghost i: nat, ghost outcome: Outcome, canceled: bool) returns (ok: bool)
      requires Tracked() && pc == Releasing(i, outcome)
      modifies `book, `pc, `acts
      ensures Tracked()
      ensures !ok ==> pc == Leaving(true, false)
      ensures ok ==> pc == if (outcome.NotDialed? && canceled) || (outcome.Answered? && !IsChannelError(outcome.status))
                           then Leaving(false, false) else Trying(i + 1)
    {
      Interfere();
      var fault: Fault := *;
      ghost var before := Now();
      var (b, reply) := Call(book, OpRelease(job.res.id), fault);
      book := b;
      Advance(before, Choice(fault, 0).(canceled := canceled));
      return reply == Done;
    }

    /** One network send: the request leaves while the reservation is in flight on this very channel. The consumption
        a 2xx will be settled with is only known later and is passed as a prophecy to the history. */
    method Send(ghost i: nat, channel: string, charge: Consumption) returns (outcome: Outcome)
      requires Tracked() && pc == Sending(i) && i < |job.candidates| && channel == job.candidates[i]
      requires charge.reservationId == job.res.id && charge.channel == channel && Billed(pricing, job, charge)
      modifies `book, `sends, `pc, `acts
      ensures Tracked() && sends == old(sends) + [Sent(channel, outcome, charge)]
      ensures pc == AfterSend(job, i, Choice(Delivered, 0).(outcome := outcome, charge := charge))
    {
      Interfere();
      outcome := *;
      ghost var before := Now();
      sends := sends + [Sent(channel, outcome, charge)];
      Advance(before, Choice(Delivered, 0).(outcome := outcome, charge := charge));
    }

    /** Up to three tries; only an unavailable ledger is retried. */
    method RecordConsumptionWithRetry(c: Consumption) returns (ok: bool)
      requires Tracked() && pc == Recording(c, 0)
      modifies `book, `pc, `acts
      ensures Tracked() && pc == if ok then Protocol.Finalizing(c) else Leaving(true, false)
    {
      var attempt := 0;
      while attempt < RETRIES
        invariant attempt < RETRIES && Tracked() && pc == Recording(c, attempt)
        decreases RETRIES - attempt
      {
        Interfere();
        var fault: Fault := *;
        var contextDone: bool := *;
        ghost var before := Now();
        var (b, reply) := Call(book, OpRecord(c), fault);
        book := b;
        Advance(before, Choice(fault, 0).(canceled := contextDone));
        if reply == Done {
          return true;
        }
        if reply != Failed(Unavailable) {
          return false;
        }
        if attempt == RETRIES - 1 {
          break;
        }
        if contextDone {
          return false;
        }
        attempt := attempt + 1;
      }
      return false;
    }

    /** Records the consumption, then finalizes; a charge above the frozen amount records nothing. */
    method Settle(c: Consumption) returns (settled: bool)
      requires Tracked() && pc == if c.cost > job.res.amount then Leaving(true, false) else Recording(c, 0)
      modifies `book, `pc, `acts
      ensures Tracked() && pc == Leaving(true, settled)
    {
      if c.cost > job.res.amount {
        return false;
      }
      var recorded := RecordConsumptionWithRetry(c);
      if !recorded {
        return false;
      }
      Interfere();
      var fault: Fault := *;
      ghost var before := Now();
      var (b, reply) := Call(book, OpFinalize(job.res.id), fault);
      book := b;
      Advance(before, Choice(fault, 0));
      return reply == Done;
    }

    /** What a 2xx answer is read as: the usage to settle with, and how the attempt has ended. */
    method ReadAnswer() returns (usage: Usage, kind: OutcomeKind, ghost body: Body)
      ensures Yields(body, usage)
      ensures AnswerFits(kind, body)
    {
      if !streaming {
        var parsed: bool := *;
        if !parsed {
          return NO_USAGE, SuccessOutcome, Unparsed;
        }
        usage := *;
        return usage, SuccessOutcome, Parsed(usage);
      }
      var flushes: bool := *;
      if !flushes {
        return NO_USAGE, Neutral, Unflushable;
      }
      var turns: seq<Read> := *;
      var ending;
      ghost var last;
      usage, ending, last := SettleStream(turns);
      body := Streamed(turns);
      StreamKind(turns, last, usage, ending);
      match ending {
        case Succeeded => kind := SuccessOutcome;
        case ChannelFault => kind := ChannelError;
        case ClientGone => kind := Neutral;
      }
    }

    /** What holds after an attempt, of its outcome and of what was sent. */
    ghost predicate Tried(i: nat, before: seq<Sent>, out: TryOutcome, how: Attempt)
      reads `pc, `sends, `reported
    {
      && pc == (if GoesOn(how) then Trying(i + 1) else Leaving(out.consumed, out.settled))
      && (GoesOn(how) <==> out.kind.ChannelError? && !out.committed && !out.consumed)
      && KindFits(out.kind, how)
      && (if how.Attempted? then |sends| == |before| + 1 && before <= sends && Last(sends).outcome == how.outcome else sends == before)
      && (how.Attempted? && Success(how.outcome) ==>
            Yields(how.body, reported) && Charges(pricing, job.res, Last(sends).charge, reported))
    }

    /** One candidate, streaming or not: build, mark in flight, send, then release, settle or stop. */
    method TryCandidate(i: nat) returns (out: TryOutcome, ghost how: Attempt)
      requires Tracked() && pc == Trying(i) && i < |job.candidates|
      modifies `book, `sends, `pc, `acts, `reported
      ensures Tracked() && Tried(i, old(sends), out, how)
    {
      var canceled: bool := *;
      if canceled {
        Advance(Now(), Choice(Delivered, 0).(canceled := true));
        return TryOutcome(Neutral, false, false, false), Abandoned;
      }
      var built: bool := *;
      if !built {
        Advance(Now(), Choice(Delivered, 0).(prepared := false));
        return TryOutcome(ChannelError, false, false, false), Unbuilt;
      }
      Advance(Now(), Choice(Delivered, 0));
      out, how := TryBuilt(i);
    }

    /** The attempt from the moment its request is built. */
    method TryBuilt(i: nat) returns (out: TryOutcome, ghost how: Attempt)
      requires Tracked() && pc == Marking(i) && i < |job.candidates|
      modifies `book, `sends, `pc, `acts, `reported
      ensures Tracked() && Tried(i, old(sends), out, how)
    {
      var marked := MarkInFlight(i, job.candidates[i]);
      if !marked {
        var released := ReleaseUnsent(i);
        return TryOutcome(ChannelError, false, !released, false), Unmarked(released);
      }
      out, how := SendMarked(i);
    }

    /** The consumption that this usage is recorded as. */
    method Bill(channel: string, usage: Usage) returns (c: Consumption)
      ensures Charges(pricing, job.res, c, usage) && c.channel == channel && Billed(pricing, job, c)
    {
      var now: int := *;
      var charge := SettlementCost(pricing, job.res.model, job.res.amount, usage);
      return ConsumptionOf(job.res, channel, usage, charge, now);
    }

    /** The send of a marked attempt, and what its answer leads to. */
    method SendMarked(i: nat) returns (out: TryOutcome, ghost how: Attempt)
      requires Tracked() && pc == Sending(i) && i < |job.candidates|
      modifies `book, `sends, `pc, `acts, `reported
      ensures Tracked() && Tried(i, old(sends), out, how)
    {
      // Decided by the upstream: what it reports once it answers 2xx, and how delivery to the client ends.
      var usage, kind;
      ghost var body;
      usage, kind, body := ReadAnswer();
      reported := usage;
      var c := Bill(job.candidates[i], usage);
      var outcome := Send(i, job.candidates[i], c);
      if !Success(outcome) {
        out, how := Unsuccessful(i, outcome, body);
      } else {
        out, how := Successful(c, kind, outcome, body);
      }
    }

    /** A 2xx is settled, whatever has become of it. */
    method Successful(c: Consumption, kind: OutcomeKind, ghost outcome: Outcome, ghost body: Body)
      returns (out: TryOutcome, ghost how: Attempt)
      requires Tracked() && Success(outcome) && AnswerFits(kind, body)
      requires pc == if c.cost > job.res.amount then Leaving(true, false) else Recording(c, 0)
      modifies `book, `pc, `acts
      ensures Tracked() && how == Attempted(outcome, false, false, body) && KindFits(out.kind, how)
      ensures out.consumed && pc == Leaving(out.consumed, out.settled)
    {
      AnswerIsKind(kind, outcome, body);
      var settled := Settle(c);
      var written: bool := *;
      return TryOutcome(kind, settled, true, written || kind != Neutral), Attempted(outcome, false, false, body);
    }

    /** A send that failed, or was answered otherwise than with a 2xx. */
    method Unsuccessful(i: nat, outcome: Outcome, ghost body: Body) returns (out: TryOutcome, ghost how: Attempt)
      requires Tracked() && !Success(outcome)
      requires pc == if ProvedUnconsumed(outcome) then Releasing(i, outcome) else Leaving(true, false)
      modifies `book, `pc, `acts
      ensures Tracked() && how.Attempted? && how.outcome == outcome && KindFits(out.kind, how)
      ensures GoesOn(how) <==> out.kind.ChannelError? && !out.committed && !out.consumed
      ensures pc == if GoesOn(how) then Trying(i + 1) else Leaving(out.consumed, out.settled)
    {
      match outcome {
        case NotDialed =>
          var canceled: bool := *;
          var released := ReleaseRejected(i, outcome, canceled);
          how := Attempted(outcome, canceled, released, body);
          if released {
            return TryOutcome(if canceled then Neutral else ChannelError, false, false, false), how;
          }
          return TryOutcome(if canceled then Neutral else ChannelError, false, true, false), how;
        case NetworkError =>
          var canceled: bool := *;
          return TryOutcome(if canceled then Neutral else ChannelError, false, true, false), Attempted(outcome, canceled, false, body);
        case Answered(status) =>
          if !DefinitelyUnconsumedStatus(status) {
            return TryOutcome(ChannelError, false, true, true), Attempted(outcome, false, false, body);
          }
          var released := ReleaseRejected(i, outcome, false);
          how := Attempted(outcome, false, released, body);
          if !released {
            return TryOutcome(ChannelError, false, true, false), how;
          }
          return TryOutcome(if IsChannelError(status) then ChannelError else ClientError, false, false, false), how;
      }
    }

    /** The arms of the loop's switch: each reports to the breaker and decides whether the loop is left. */
    method Report(out: TryOutcome, permit: CircuitBreaker.BreakerPermit, ghost how: Attempt)
      returns (left: bool, consumed: bool, settled: bool)
      requires permit.breaker in breakers && !permit.used && KindFits(out.kind, how)
      requires GoesOn(how) <==> out.kind.ChannelError? && !out.committed && !out.consumed
      modifies permit, breakers
      ensures permit.used && permit.verdict.Some? && VerdictFits(permit.verdict.value, how)
      ensures left == !GoesOn(how)
      ensures (consumed, settled) == if left then (out.consumed, out.settled) else (false, false)
    {
      Traffic();
      var now: int := *;
      match out.kind {
        case SuccessOutcome =>
          permit.Resolve(CircuitBreaker.Success, now);
          return true, out.consumed, out.settled;
        case ClientError =>
          permit.Resolve(CircuitBreaker.Success, now);
          return true, out.consumed, out.settled;
        case ChannelError =>
          permit.Resolve(CircuitBreaker.Failure, now);
          if out.committed || out.consumed {
            return true, out.consumed, out.settled;
          }
          return false, false, false;
        case Neutral =>
          permit.Resolve(CircuitBreaker.Neutral, now);
          return true, out.consumed, out.settled;
      }
    }

    /** One turn of the candidate loop: admission, the attempt, and the report. */
    method NextCandidate(i: nat) returns (left: bool, consumed: bool, settled: bool)
      requires Tracked() && pc == Trying(i) && i < |job.candidates| == |breakers| && AllResolved()
      requires sends != [] ==> !Success(Last(sends).outcome)
      modifies this, breakers
      ensures Tracked() && AllResolved() && Priced() && old(issued) <= issued
      ensures forall k | |old(issued)| <= k < |issued| :: fresh(issued[k])
      ensures if left then pc == Leaving(consumed, settled) else pc == Trying(i + 1) && !consumed && !settled
      ensures attempts == old(attempts) || (|attempts| == |old(attempts)| + 1 && old(attempts) <= attempts)
      ensures left <==> |attempts| > |old(attempts)| && !GoesOn(attempts[|attempts| - 1])
    {
      Traffic();
      var now: int := *;
      var permit := breakers[i].Admit(now);
      if permit == null {
        Advance(Now(), Choice(Delivered, 0).(admitted := false));
        return false, false, false;
      }
      left, consumed, settled := TryWith(i, permit);
    }

    /** The attempt on an admitted candidate, and its report to the breaker. */
    method TryWith(i: nat, permit: CircuitBreaker.BreakerPermit) returns (left: bool, consumed: bool, settled: bool)
      requires Tracked() && pc == Trying(i) && i < |job.candidates| && AllResolved()
      requires permit.breaker in breakers && !permit.used && permit !in issued
      requires sends != [] ==> !Success(Last(sends).outcome)
      modifies this, permit, breakers
      ensures Tracked() && AllResolved() && Priced()
      ensures issued == old(issued) + [permit] && |attempts| == |old(attempts)| + 1 && old(attempts) <= attempts
      ensures if left then pc == Leaving(consumed, settled) else pc == Trying(i + 1) && !consumed && !settled
      ensures left == !GoesOn(attempts[|attempts| - 1])
    {
      var out;
      ghost var how;
      out, how := TryCandidate(i);
      left, consumed, settled := Report(out, permit, how);
      issued, attempts := issued + [permit], attempts + [how];
    }

    /** The candidate loop and the deferred refund. It ends after all candidates, unless the client has gone before or the last
        attempt ended it. At the end the history is a finished run of the protocol, the flags
        say what happened to the money, a settled reservation is charged for the usage that its answer reported, and every
        breaker permit has been resolved with the verdict of its attempt. */
    method Forward() returns (consumed: bool, settled: bool, ghost gone: bool, ghost ended: bool)
      requires Tracked() && pc == Trying(0) && |breakers| == |job.candidates| && sends == [] && issued == [] && attempts == []
      modifies this, breakers
      ensures Tracked() && pc == Over(consumed, settled)
      ensures Onward(attempts, ended) && (gone || ended || Exhausted())
      ensures AllResolved() && forall k | 0 <= k < |issued| :: fresh(issued[k])
      ensures job.res.id in book.records
      ensures !consumed ==> !settled && Refundable(book.records[job.res.id]) && Clean(sends)
      ensures settled ==> PaidAsReported()
      ensures WellFormed(start.book) && Sellable(pricing, job.res.model) && AllDelivered(acts) && WealthFits(job, start, acts)
        ==> EndsWell(job, Now())
    {
      consumed, settled, gone, ended := TryAll();
      ghost var before := acts;
      DeferredRefund(consumed, settled);
      StaysExhausted(before);
      Finished();
    }

    /** The loop has been through all the candidates. */
    ghost predicate Exhausted()
      reads `acts
    {
      Reached(job, start, acts, |job.candidates|)
    }

    method TryAll() returns (consumed: bool, settled: bool, ghost gone: bool, ghost ended: bool)
      requires Tracked() && pc == Trying(0) && |breakers| == |job.candidates| && sends == [] && issued == [] && attempts == []
      modifies this, breakers
      ensures Tracked() && pc == Leaving(consumed, settled) && Priced()
      ensures Onward(attempts, ended) && (gone || ended || Exhausted())
      ensures AllResolved() && forall k | 0 <= k < |issued| :: fresh(issued[k])
    {
      consumed, settled, gone, ended := false, false, false, false;
      var left := false;
      var i := 0;
      while i < |job.candidates| && !left
        invariant i <= |job.candidates| && Tracked()
        invariant !left ==> pc == Trying(i) && !consumed && !settled
        invariant left ==> pc == Leaving(consumed, settled) && (gone || ended)
        invariant Onward(attempts, ended) && (ended ==> left)
        invariant AllResolved() && Priced() && forall k | 0 <= k < |issued| :: fresh(issued[k])
        decreases |job.candidates| - i, !left
      {
        left, consumed, settled, gone, ended := Round(i);
        i := if left then i else i + 1;
      }
      if !left {
        EndOfList();
      }
    }

    /** One round of the loop: a client that has gone ends it, otherwise the next candidate is tried. */
    method Round(i: nat) returns (left: bool, consumed: bool, settled: bool, ghost gone: bool, ghost ended: bool)
      requires Tracked() && pc == Trying(i) && i < |job.candidates| == |breakers| && AllResolved() && Priced()
      requires Onward(attempts, false)
      modifies this, breakers
      ensures Tracked() && AllResolved() && Priced() && old(issued) <= issued
      ensures forall k | |old(issued)| <= k < |issued| :: fresh(issued[k])
      ensures if left then pc == Leaving(consumed, settled) else pc == Trying(i + 1) && !consumed && !settled
      ensures Onward(attempts, ended) && left == (gone || ended)
    {
      var canceled: bool := *;
      if canceled {
        Advance(Now(), Choice(Delivered, 0).(canceled := true));
        return true, false, false, true, false;
      }
      StillUnanswered();
      left, consumed, settled := NextCandidate(i);
      OnwardGrows(old(attempts), attempts, left);
      gone, ended := false, left;
    }

    /** The step that leaves the loop after the last candidate. */
    ghost method EndOfList()
      requires Tracked() && pc == Trying(|job.candidates|)
      modifies `pc, `acts
      ensures Tracked() && pc == Leaving(false, false) && Exhausted()
    {
      ghost var all := acts;
      Advance(Now(), Choice(Delivered, 0));
      AtTheEnd(all);
    }

    lemma AtTheEnd(all: seq<Action>)
      requires acts != [] && all == acts[..|acts| - 1] && Protocol.Run(job, start, all).pc == Trying(|job.candidates|)
      ensures Exhausted()
    {
    }

    /** Whether a settled reservation carries the charge of the usage that the answer of its last attempt reported. */
    ghost predicate PaidAsReported()
      reads `book, `sends, `attempts, `reported
    {
      && job.res.id in book.records && var rec := book.records[job.res.id];
      && rec.status.Settled? && Payable(job, sends) && rec.consumption == Last(sends).charge
      && Charges(pricing, job.res, rec.consumption, reported)
      && attempts != [] && var how := attempts[|attempts| - 1];
      how.Attempted? && Yields(how.body, reported)
    }

    lemma StaysExhausted(before: seq<Action>)
      requires before <= acts
      ensures Reached(job, start, before, |job.candidates|) ==> Exhausted()
    {
      if Reached(job, start, before, |job.candidates|) {
        var j :| 0 <= j <= |before| && Protocol.Run(job, start, before[..j]).pc == Trying(|job.candidates|);
        assert acts[..j] == before[..j];
      }
    }

    lemma Finished()
      requires Tracked() && Priced() && pc.Over?
      ensures job.res.id in book.records
      ensures !pc.consumed ==> !pc.settled && Refundable(book.records[job.res.id]) && Clean(sends)
      ensures pc.settled ==> PaidAsReported()
      ensures WellFormed(start.book) && Sellable(pricing, job.res.model) && AllDelivered(acts) && WealthFits(job, start, acts)
        ==> EndsWell(job, Now())
    {
      ExitFlagsAreTrue(job, start, acts);
      if WellFormed(start.book) && Sellable(pricing, job.res.model) && AllDelivered(acts) && WealthFits(job, start, acts) {
        FaultFreeEnding(pricing, job, start, acts);
      }
    }

    /** While the loop goes on, no send has been answered 2xx. */
    lemma StillUnanswered()
      requires Tracked() && pc.Trying?
      ensures sends != [] ==> !Success(Last(sends).outcome)
    {
      InitialInv(job, start);
      RunKeepsInv(job, start, acts);
      if sends != [] { assert ProvedUnconsumed(sends[|sends| - 1].outcome); }
    }

    method DeferredRefund(consumed: bool, settled: bool)
      requires Tracked() && pc == Leaving(consumed, settled)
      modifies `book, `pc, `acts
      ensures Tracked() && pc == Over(consumed, settled) && old(acts) <= acts
    {
      Interfere();
      var fault: Fault := *;
      ghost var before := Now();
      if !consumed && !settled {
        book := Call(book, OpRefund(job.res.id), fault).0;
      }
      Advance(before, Choice(fault, 0));
    }
  }

  lemma StreamKind(turns: seq<Read>, last: nat, usage: Usage, ending: Ending)
    requires EndsAt(turns, last, usage, ending) && (ending == Succeeded <==> Exactly(turns))
    ensures Yields(Streamed(turns), usage)
    ensures ending == ClientGone <==> exists k: nat :: HangsUpAt(turns, k)
  {
    if ending == ClientGone { assert HangsUpAt(turns, last); }
    forall k: nat | HangsUpAt(turns, k) ensures ending == ClientGone { StopIsUnique(turns, k, last); }
  }
}
