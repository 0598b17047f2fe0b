/** Where every field of a reservation comes from: the call, in the sequence of all calls, that put it there. */
module LedgerHistory {
  import opened Int64
  import opened Ledger
  import MemoryLedger

  ghost predicate StatusIs(b: Book, id: string, status: Status) { id in b.records && b.records[id].status == status }

  ghost predicate Consumed(b: Book, id: string) { StatusIs(b, id, ConsumedUnsettled) || StatusIs(b, id, Settled) }

  /** The k-th call moved the reservation from one status to another, and it has not moved since. */
  ghost predicate MovedBy(b: Book, ops: seq<Op>, k: nat, id: string, from: Status, to: Status) {
    && k < |ops| && StatusIs(Run(b, ops[..k]), id, from)
    && forall j | k < j <= |ops| :: StatusIs(Run(b, ops[..j]), id, to)
  }

  lemma Front(b: Book, ops: seq<Op>)
    requires ops != []
    ensures Run(b, ops) == Apply(Run(b, ops[..|ops| - 1]), ops[|ops| - 1]).0
    ensures forall j | 0 <= j < |ops| :: ops[..|ops| - 1][..j] == ops[..j]
    ensures ops[..|ops|] == ops
  {
  }

  lemma MovedNow(b: Book, ops: seq<Op>, id: string, from: Status, to: Status)
    requires ops != [] && StatusIs(Run(b, ops[..|ops| - 1]), id, from) && StatusIs(Run(b, ops), id, to)
    ensures MovedBy(b, ops, |ops| - 1, id, from, to)
  {
    Front(b, ops);
  }

  lemma MovedBefore(b: Book, ops: seq<Op>, k: nat, id: string, from: Status, to: Status)
    requires ops != [] && MovedBy(b, ops[..|ops| - 1], k, id, from, to) && StatusIs(Run(b, ops), id, to)
    ensures MovedBy(b, ops, k, id, from, to) && ops[..|ops| - 1][k] == ops[k]
  {
    Front(b, ops);
    var front := ops[..|ops| - 1];
    forall j | k < j <= |ops| ensures StatusIs(Run(b, ops[..j]), id, to) {
      if j < |ops| { assert front[..j] == ops[..j]; }
    }
  }

  lemma StepReserves(b: Book, op: Op, id: string)
    ensures id in b.records ==> id in Apply(b, op).0.records && Apply(b, op).0.records[id].reservation == b.records[id].reservation
    ensures id !in b.records && id in Apply(b, op).0.records ==>
      op == OpReserve(Apply(b, op).0.records[id].reservation) && op.r.id == id
  {
  }

  lemma StepMarks(b: Book, op: Op, id: string)
    requires StatusIs(Apply(b, op).0, id, InFlight)
    ensures var rec := Apply(b, op).0.records[id];
      if StatusIs(b, id, InFlight) then rec == b.records[id]
      else StatusIs(b, id, Reserved) && rec.attemptedAt.Some? && op == OpMark(id, rec.attemptChannel, rec.attemptedAt.value)
  {
  }

  lemma StepRecords(b: Book, op: Op, id: string)
    requires Consumed(Apply(b, op).0, id)
    ensures var rec := Apply(b, op).0.records[id];
      if Consumed(b, id) then rec.consumption == b.records[id].consumption
      else
        && StatusIs(b, id, InFlight) && op == OpRecord(rec.consumption) && rec.consumption.reservationId == id
        && b.records[id].attemptChannel in {"", rec.consumption.channel}
  {
  }

  lemma KnownLonger(b: Book, front: seq<Op>, ops: seq<Op>, k: nat, id: string)
    requires ops != [] && front == ops[..|ops| - 1] && id in Run(b, ops).records
    requires forall j | k < j <= |front| :: id in Run(b, front[..j]).records
    ensures forall j | k < j <= |ops| :: id in Run(b, ops[..j]).records
  {
    Front(b, ops);
    forall j | k < j <= |ops| ensures id in Run(b, ops[..j]).records {
      if j < |ops| { assert front[..j] == ops[..j]; }
    }
  }

  lemma ConsumedLonger(b: Book, front: seq<Op>, ops: seq<Op>, k: nat, id: string)
    requires ops != [] && front == ops[..|ops| - 1] && Consumed(Run(b, ops), id)
    requires forall j | k < j <= |front| :: Consumed(Run(b, front[..j]), id)
    ensures forall j | k < j <= |ops| :: Consumed(Run(b, ops[..j]), id)
  {
    Front(b, ops);
    forall j | k < j <= |ops| ensures Consumed(Run(b, ops[..j]), id) {
      if j < |ops| { assert front[..j] == ops[..j]; }
    }
  }

  /** A reservation is the one that the first call for its id brought, creation time included. */
  lemma {:induction false} ReservedBy(b: Book, ops: seq<Op>, id: string) returns (k: nat)
    requires id !in b.records && id in Run(b, ops).records
    ensures k < |ops| && ops[k] == OpReserve(Run(b, ops).records[id].reservation) && ops[k].r.id == id
    ensures id !in Run(b, ops[..k]).records && forall j | k < j <= |ops| :: id in Run(b, ops[..j]).records
  {
    Front(b, ops);
    var front := ops[..|ops| - 1];
    StepReserves(Run(b, front), ops[|ops| - 1], id);
    if id in Run(b, front).records {
      k := ReservedBy(b, front, id);
      assert front[..k] == ops[..k] && front[k] == ops[k];
      KnownLonger(b, front, ops, k, id);
    } else {
      k := |ops| - 1;
    }
  }

  /** A reservation in flight carries the channel and the clock of the call that marked it, and has been in flight since. */
  lemma {:induction false} MarkedBy(b: Book, ops: seq<Op>, id: string) returns (k: nat)
    requires StatusIs(Run(b, ops), id, InFlight) && !StatusIs(b, id, InFlight)
    ensures MovedBy(b, ops, k, id, Reserved, InFlight)
    ensures var rec := Run(b, ops).records[id];
      rec.attemptedAt.Some? && ops[k] == OpMark(id, rec.attemptChannel, rec.attemptedAt.value)
  {
    Front(b, ops);
    var front, last := ops[..|ops| - 1], ops[|ops| - 1];
    StepMarks(Run(b, front), last, id);
    if StatusIs(Run(b, front), id, InFlight) {
      k := MarkedBy(b, front, id);
      MovedBefore(b, ops, k, id, Reserved, InFlight);
    } else {
      k := |ops| - 1;
      MovedNow(b, ops, id, Reserved, InFlight);
    }
  }

  /** A consumption is the fact some call recorded while the reservation was in flight, on the channel of the attempt. */
  lemma {:induction false} RecordedBy(b: Book, ops: seq<Op>, id: string) returns (k: nat)
    requires Consumed(Run(b, ops), id) && !Consumed(b, id)
    ensures k < |ops| && ops[k] == OpRecord(Run(b, ops).records[id].consumption) && ops[k].c.reservationId == id
    ensures StatusIs(Run(b, ops[..k]), id, InFlight) && forall j | k < j <= |ops| :: Consumed(Run(b, ops[..j]), id)
    ensures Run(b, ops[..k]).records[id].attemptChannel in {"", ops[k].c.channel}
  {
    Front(b, ops);
    var front, last := ops[..|ops| - 1], ops[|ops| - 1];
    StepRecords(Run(b, front), last, id);
    if Consumed(Run(b, front), id) {
      k := RecordedBy(b, front, id);
      assert front[..k] == ops[..k] && front[k] == ops[k];
      ConsumedLonger(b, front, ops, k, id);
    } else {
      k := |ops| - 1;
    }
  }

  // ---- what a recovery pass calls stale ----

  /** Somebody marked this attempt more than a day before, and it has been in flight since. */
  ghost predicate OldAttempt(b: Book, ops: seq<Op>, k: nat, id: string, now: int) {
    && MovedBy(b, ops, k, id, Reserved, InFlight)
    && ops[k].OpMark? && ops[k].id == id && ops[k].now < now - 86_400_000_000_000
  }

  /** Somebody reserved this more than five minutes before, by its creation time, and it is reserved now. */
  ghost predicate OldReservation(b: Book, ops: seq<Op>, k: nat, id: string, now: int) {
    && StatusIs(Run(b, ops), id, Reserved) && k < |ops| && id !in Run(b, ops[..k]).records && id in Run(b, ops[..k + 1]).records
    && ops[k].OpReserve? && ops[k].r.id == id && ops[k].r.createdAt.Some? && ops[k].r.createdAt.value < now - 300_000_000_000
  }

  lemma OneMark(b: Book, ops: seq<Op>, j: nat, k: nat, id: string)
    requires MovedBy(b, ops, j, id, Reserved, InFlight) && MovedBy(b, ops, k, id, Reserved, InFlight)
    ensures j == k
  {
  }

  lemma {:induction false} OneReserve(b: Book, ops: seq<Op>, j: nat, k: nat, id: string)
    requires j <= k <= |ops| && id in Run(b, ops[..j]).records
    ensures id in Run(b, ops[..k]).records
    decreases k
  {
    if j < k {
      OneReserve(b, ops, j, k - 1, id);
      assert ops[..k][..k - 1] == ops[..k - 1];
      StepLifecycle(Run(b, ops[..k - 1]), ops[k - 1], id);
    }
  }

  /** From a book without attempts, a pass finds a stale attempt exactly when some call that marked one, with no release and
      no consumption since, is more than a day old by its own clock. */
  lemma StaleAttemptIff(b: Book, ops: seq<Op>, id: string, now: int)
    requires !StatusIs(b, id, InFlight)
    ensures (id in Run(b, ops).records && MemoryLedger.StaleInFlight(Run(b, ops).records[id], now))
       <==> exists k: nat :: OldAttempt(b, ops, k, id, now)
  {
    if StatusIs(Run(b, ops), id, InFlight) {
      var k := MarkedBy(b, ops, id);
      assert OldAttempt(b, ops, k, id, now) <==> ops[k].now < now - 86_400_000_000_000;
      forall j: nat | OldAttempt(b, ops, j, id, now) ensures j == k { OneMark(b, ops, j, k, id); }
    } else {
      Whole(ops);
    }
  }

  lemma Whole(ops: seq<Op>)
    ensures ops[..|ops|] == ops
  {
  }

  /** And it refunds an abandoned reservation exactly when the call that brought it is more than five minutes old. */
  lemma StaleReservationIff(b: Book, ops: seq<Op>, id: string, now: int)
    requires id !in b.records
    ensures (id in Run(b, ops).records && MemoryLedger.StaleReserved(Run(b, ops).records[id], now))
       <==> exists k: nat :: OldReservation(b, ops, k, id, now)
  {
    if StatusIs(Run(b, ops), id, Reserved) {
      var k := ReservedBy(b, ops, id);
      assert OldReservation(b, ops, k, id, now)
        <==> ops[k].r.createdAt.Some? && ops[k].r.createdAt.value < now - 300_000_000_000;
      forall j: nat | OldReservation(b, ops, j, id, now) ensures j == k {
        if j < k { OneReserve(b, ops, j + 1, k, id); }
      }
    }
  }
}
