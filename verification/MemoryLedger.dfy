/** The in-process ledger and the user store it shares: each method implements the corresponding step of the book. */
module MemoryLedger {
  import opened Int64
  import opened Ledger

  // Nanoseconds, as time.Duration.
  const STALE_RESERVED_AFTER := 300_000_000_000
  const STALE_IN_FLIGHT_AFTER := 86_400_000_000_000

  class MemoryStore {
    var balances: map<string, int64>
    var users: map<string, bool>

    constructor ()
      ensures balances == map[] && users == map[]
    {
      balances, users := map[], map[];
    }

    function BookWith(records: map<string, Record>): Book
      reads this
    {
      Book(balances, users, records)
    }

    method BillingReserve(user: string, amount: int64) returns (reply: Reply)
      modifies this`balances
      ensures forall records :: (BookWith(records), reply) == Debit(old(BookWith(records)), user, amount)
    {
      if amount < 0 {
        return Failed(BalanceOverflow);
      }
      if user !in users || !users[user] {
        return Failed(UserNotFound);
      }
      var balance := if user in balances then balances[user] else 0;
      if balance < amount {
        return Refused;
      }
      balances := balances[user := balance - amount];
      return Done;
    }

    method BillingAdjust(user: string, delta: int64) returns (reply: Reply)
      modifies this`balances
      ensures forall records :: (BookWith(records), reply) == Adjust(old(BookWith(records)), user, delta)
    {
      if user !in users {
        return Failed(UserNotFound);
      }
      var sum := CheckedBalanceAdd(if user in balances then balances[user] else 0, delta);
      if sum.None? {
        return Failed(BalanceOverflow);
      }
      balances := balances[user := sum.value];
      return Done;
    }

    method AdminCreateUser(user: string, balance: int64, enabled: bool) returns (reply: Reply)
      modifies this
      ensures forall records :: (BookWith(records), reply) == CreateUser(old(BookWith(records)), user, balance, enabled)
    {
      if user in users {
        return Failed(UserExists);
      }
      users := users[user := enabled];
      balances := balances[user := balance];
      return Done;
    }

    method AdminSetUserEnabled(user: string, enabled: bool) returns (reply: Reply)
      modifies this`users
      ensures forall records :: (BookWith(records), reply) == SetEnabled(old(BookWith(records)), user, enabled)
    {
      if user !in users {
        return Failed(UserNotFound);
      }
      users := users[user := enabled];
      return Done;
    }

    method AdminAddBalance(user: string, delta: int64) returns (reply: Reply)
      modifies this`balances
      ensures forall records :: (BookWith(records), reply) == Adjust(old(BookWith(records)), user, delta)
    {
      if user !in users {
        return Failed(UserNotFound);
      }
      var sum := CheckedBalanceAdd(if user in balances then balances[user] else 0, delta);
      if sum.None? {
        return Failed(BalanceOverflow);
      }
      balances := balances[user := sum.value];
      return Done;
    }
  }

  ghost predicate StaleReserved(rec: Record, now: int) {
    rec.status == Reserved && rec.reservation.createdAt.Some? && rec.reservation.createdAt.value < now - STALE_RESERVED_AFTER
  }

  ghost predicate StaleInFlight(rec: Record, now: int) {
    rec.status == InFlight && rec.attemptedAt.Some? && rec.attemptedAt.value < now - STALE_IN_FLIGHT_AFTER
  }

  /** Nothing left for a recovery pass at this clock to change. */
  ghost predicate Quiet(b: Book, now: int) {
    forall id | id in b.records :: b.records[id].status != ConsumedUnsettled && !StaleReserved(b.records[id], now)
  }

  /** What happens while a recovery pass is under way: its own calls, and those of everyone else. */
  datatype Move = Own(op: Op) | Foreign(op: Op)

  function OpsOf(moves: seq<Move>): seq<Op> {
    if moves == [] then [] else OpsOf(moves[..|moves| - 1]) + [moves[|moves| - 1].op]
  }

  predicate Alone(moves: seq<Move>) { forall i | 0 <= i < |moves| :: moves[i].Own? }

  predicate OwnPayouts(moves: seq<Move>) {
    forall i | 0 <= i < |moves| && moves[i].Own? :: moves[i].op.OpFinalize? || moves[i].op.OpRefund?
  }

  /** A pass so far: only payouts of its own, between any calls of others. */
  ghost predicate PassSoFar(book: Book, b: Book, moves: seq<Move>) { OwnPayouts(moves) && b == Run(book, OpsOf(moves)) }

  ghost predicate AllHave(b: Book, ids: seq<string>, status: Status) {
    forall id | id in ids :: id in b.records && b.records[id].status == status
  }

  /** The recovered form of one record: consumptions settle, abandoned reservations are refunded, all others stay. */
  ghost function Recovered(rec: Record, now: int): Record {
    if rec.status == ConsumedUnsettled then rec.(status := Settled)
    else if StaleReserved(rec, now) then rec.(status := Refunded)
    else rec
  }

  class MemoryLedger {
    const store: MemoryStore
    var records: map<string, Record>

    constructor (store: MemoryStore)
      ensures this.store == store && View() == Book(store.balances, store.users, map[])
    {
      this.store := store;
      this.records := map[];
    }

    function View(): Book
      reads this, store
    {
      store.BookWith(records)
    }

    method Reserve(r: Reservation) returns (reply: Reply)
      modifies this`records, store`balances
      ensures (View(), reply) == Ledger.Reserve(old(View()), r)
    {
      if r.id in records {
        var rec := records[r.id];
        if !SameReservation(rec.reservation, r) {
          return Failed(Conflict);
        }
        if rec.status != Reserved {
          return Failed(InvalidTransition);
        }
        return Done;
      }
      reply := store.BillingReserve(r.userId, r.amount);
      if reply == Done {
        records := records[r.id := Record(r, Reserved, "", None, NOTHING_CONSUMED)];
      }
    }

    method RecordConsumption(c: Consumption) returns (reply: Reply)
      modifies this`records
      ensures (View(), reply) == Ledger.RecordConsumption(old(View()), c)
    {
      if c.reservationId !in records {
        return Failed(InvalidTransition);
      }
      var rec := records[c.reservationId];
      match rec.status {
        case InFlight =>
          if rec.attemptChannel != "" && rec.attemptChannel != c.channel {
            return Failed(Conflict);
          }
          rec := rec.(consumption := c);
          rec := rec.(status := ConsumedUnsettled);
          records := records[c.reservationId := rec];
          return Done;
        case ConsumedUnsettled =>
          return if SameConsumption(rec.consumption, c) then Done else Failed(Conflict);
        case Settled =>
          return if SameConsumption(rec.consumption, c) then Done else Failed(Conflict);
        case _ =>
          return Failed(InvalidTransition);
      }
    }

    method MarkInFlight(id: string, channel: string, now: int) returns (reply: Reply)
      modifies this`records
      ensures (View(), reply) == Ledger.MarkInFlight(old(View()), id, channel, now)
    {
      if id !in records {
        return Failed(InvalidTransition);
      }
      var rec := records[id];
      if rec.status == InFlight {
        return if rec.attemptChannel != channel then Failed(Conflict) else Done;
      }
      if rec.status != Reserved {
        return Failed(InvalidTransition);
      }
      records := records[id := rec.(status := InFlight, attemptChannel := channel, attemptedAt := Some(now))];
      return Done;
    }

    method ReleaseAttempt(id: string) returns (reply: Reply)
      modifies this`records
      ensures (View(), reply) == Ledger.ReleaseAttempt(old(View()), id)
    {
      if id !in records {
        return Failed(InvalidTransition);
      }
      var rec := records[id];
      if rec.status == Reserved {
        return Done;
      }
      if rec.status != InFlight {
        return Failed(InvalidTransition);
      }
      records := records[id := rec.(status := Reserved, attemptedAt := None)];
      return Done;
    }

    method Finalize(id: string) returns (reply: Reply)
      modifies this`records, store`balances
      ensures (View(), reply) == Ledger.Finalize(old(View()), id)
    {
      if id !in records {
        return Failed(InvalidTransition);
      }
      var rec := records[id];
      if rec.status == Settled {
        return Done;
      }
      if rec.status != ConsumedUnsettled {
        return Failed(InvalidTransition);
      }
      if rec.consumption.cost > rec.reservation.amount {
        return Failed(Exceeded);
      }
      if rec.consumption.cost < 0 {
        return Failed(Conflict);
      }
      reply := store.BillingAdjust(rec.reservation.userId, rec.reservation.amount - rec.consumption.cost);
      if reply == Done {
        records := records[id := rec.(status := Settled)];
      }
    }

    method Refund(id: string) returns (reply: Reply)
      modifies this`records, store`balances
      ensures (View(), reply) == Ledger.Refund(old(View()), id)
    {
      if id !in records {
        return Failed(InvalidTransition);
      }
      var rec := records[id];
      if rec.status == Refunded {
        return Done;
      }
      if rec.status != Reserved {
        return Failed(InvalidTransition);
      }
      reply := store.BillingAdjust(rec.reservation.userId, rec.reservation.amount);
      if reply == Done {
        records := records[id := rec.(status := Refunded)];
      }
    }

    /** The snapshot a recovery pass takes under the lock; the scan order of the map is arbitrary. */
    method Snapshot(now: int) returns (consumed: seq<string>, abandoned: seq<string>, ambiguous: bool)
      ensures forall id :: id in consumed <==> id in records && records[id].status == ConsumedUnsettled
      ensures forall id :: id in abandoned <==> id in records && StaleReserved(records[id], now)
      ensures ambiguous <==> exists id :: id in records && StaleInFlight(records[id], now)
    {
      consumed, abandoned, ambiguous := [], [], false;
      var unseen := records.Keys;
      while unseen != {}
        invariant unseen <= records.Keys
        invariant forall id :: id in consumed <==> id in records && id !in unseen && records[id].status == ConsumedUnsettled
        invariant forall id :: id in abandoned <==> id in records && id !in unseen && StaleReserved(records[id], now)
        invariant ambiguous <==> exists id :: id in records && id !in unseen && StaleInFlight(records[id], now)
        decreases unseen
      {
        var id :| id in unseen;
        var rec := records[id];
        if rec.status == ConsumedUnsettled {
          consumed := consumed + [id];
        } else if rec.status == Reserved && rec.reservation.createdAt.Some?
                  && rec.reservation.createdAt.value < now - STALE_RESERVED_AFTER {
          abandoned := abandoned + [id];
        } else if rec.status == InFlight && rec.attemptedAt.Some? && rec.attemptedAt.value < now - STALE_IN_FLIGHT_AFTER {
          assert StaleInFlight(records[id], now);
          ambiguous := true;
        }
        unseen := unseen - {id};
      }
    }

    /** Any call of any other process. */
    method Perform(op: Op)
      modifies this`records, store
      ensures View() == Apply(old(View()), op).0
    {
      var reply: Reply;
      match op {
        case OpReserve(r) => reply := Reserve(r);
        case OpMark(id, channel, now) => reply := MarkInFlight(id, channel, now);
        case OpRelease(id) => reply := ReleaseAttempt(id);
        case OpRecord(c) => reply := RecordConsumption(c);
        case OpFinalize(id) => reply := Finalize(id);
        case OpRefund(id) => reply := Refund(id);
        case OpAdminAdd(user, delta) => reply := store.AdminAddBalance(user, delta);
        case OpCreateUser(user, balance, enabled) => reply := store.AdminCreateUser(user, balance, enabled);
        case OpSetEnabled(user, enabled) => reply := store.AdminSetUserEnabled(user, enabled);
      }
    }

    /** Other processes run for a while. */
    method Interfere() returns (ghost ops: seq<Op>)
      modifies this`records, store
      ensures View() == Run(old(View()), ops)
    {
      ops := [];
      ghost var book := View();
      var steps: nat := *;
      while steps > 0
        invariant View() == Run(book, ops)
        decreases steps
      {
        var op: Op := *;
        RunSnoc(book, ops, op);
        Perform(op);
        ops := ops + [op];
        steps := steps - 1;
      }
    }

    /** One pass of the background task: finalize every consumption found, refund every abandoned reservation, stop at
        the first error, and report stale in-flight reservations without touching them. The lock is held for the
        snapshot and for each call only, so anything may happen in between. */
    method Recover(now: int) returns (reply: Reply, ghost moves: seq<Move>)
      modifies this`records, store
      ensures PassSoFar(old(View()), View(), moves)
      ensures reply == Done || reply == Failed(Ambiguous) ==> RecoveredSnapshot(old(View()), View(), now)
      ensures reply == Done ==> !exists id :: id in old(records) && StaleInFlight(old(records)[id], now)
      ensures reply == Failed(Ambiguous) ==> exists id :: id in old(records) && StaleInFlight(old(records)[id], now)
      ensures Alone(moves) ==> exists handled :: Progress(old(records), records, now, handled)
      ensures Alone(moves) && (reply == Done || reply == Failed(Ambiguous)) ==>
        View().records == (map id | id in old(records) :: Recovered(old(records)[id], now)) && Quiet(View(), now)
      ensures Alone(moves) && Quiet(old(View()), now) ==> View() == old(View()) && (reply == Done || reply == Failed(Ambiguous))
      ensures Alone(moves) && Sound(old(View())) ==> (reply == Done || reply == Failed(Ambiguous)) && Sound(View())
    {
      var consumed, abandoned, ambiguous := Snapshot(now);
      ghost var book := View();
      assert Quiet(book, now) ==> consumed == [] && abandoned == [] by {
        assert consumed != [] ==> consumed[0] in consumed;
        assert abandoned != [] ==> abandoned[0] in abandoned;
      }
      PassBegins(book, now);
      reply, moves := PayAll(consumed, Settled, now, book, [], [], []);
      assert [] + consumed == consumed;
      if reply != Done {
        return;
      }
      reply, moves := PayAll(abandoned, Refunded, now, book, consumed, consumed, moves);
      if reply != Done {
        return;
      }
      if Alone(moves) { RecoveredAll(book.records, View(), now, consumed + abandoned); }
      reply := if ambiguous then Failed(Ambiguous) else Done;
    }

    /** Pays out each id with a call of its own, in any state the others have left it; stops at the first error. */
    method PayAll(ids: seq<string>, final: Status, now: int, ghost book: Book, ghost handled: seq<string>,
                  ghost settled: seq<string>, ghost past: seq<Move>)
      returns (reply: Reply, ghost moves: seq<Move>)
      requires final == Settled || final == Refunded
      requires forall id | id in ids :: id in book.records && Due(book.records[id], final, now)
      requires PassSoFar(book, View(), past) && Isolated(book, View(), past, now, handled) && AllHave(View(), settled, Settled)
      modifies this`records, store
      ensures PassSoFar(book, View(), moves) && AllHave(View(), settled, Settled)
      ensures reply == Done ==> AllHave(View(), ids, final) && Isolated(book, View(), moves, now, handled + ids)
      ensures Alone(moves) ==> exists all :: Progress(book.records, records, now, all)
      ensures ids == [] ==> reply == Done
      ensures reply != Failed(Ambiguous)
      ensures Alone(moves) && Sound(book) ==> reply == Done && Sound(View())
    {
      reply, moves := Done, past;
      assert handled + ids[..0] == handled;
      for i := 0 to |ids|
        invariant reply == Done && PassSoFar(book, View(), moves) && Isolated(book, View(), moves, now, handled + ids[..i])
        invariant AllHave(View(), ids[..i], final) && AllHave(View(), settled, Settled)
      {
        ghost var was := View();
        ghost var others := Interfere();
        OthersMoved(book, was, moves, others, now, handled + ids[..i]);
        StillHave(was, others, ids[..i], final);
        StillHave(was, others, settled, Settled);
        moves := moves + Foreigns(others);
        OwnMoved(book, View(), moves, ids[i], final, now, handled + ids[..i]);
        OwnHas(View(), ids[i], final, ids[..i], settled);
        assert ids[..i + 1] == ids[..i] + [ids[i]] && handled + ids[..i + 1] == handled + ids[..i] + [ids[i]];
        reply := PayOne(ids[i], final);
        moves := moves + [Own(PayoutOp(ids[i], final))];
        if reply != Done {
          return;
        }
      }
      assert ids[..|ids|] == ids;
    }

    method PayOne(id: string, final: Status) returns (reply: Reply)
      requires final == Settled || final == Refunded
      modifies this`records, store`balances
      ensures (View(), reply) == Apply(old(View()), PayoutOp(id, final))
    {
      if final == Settled {
        reply := Finalize(id);
      } else {
        reply := Refund(id);
      }
    }
  }

  // ---- a pass among others ----

  function PayoutOp(id: string, final: Status): Op { if final == Settled then OpFinalize(id) else OpRefund(id) }

  ghost predicate Due(rec: Record, final: Status, now: int) {
    if final == Settled then rec.status == ConsumedUnsettled else StaleReserved(rec, now)
  }

  function Foreigns(ops: seq<Op>): seq<Move> { seq(|ops|, i requires 0 <= i < |ops| => Foreign(ops[i])) }

  /** Every consumption of the snapshot is settled and every reservation abandoned then is refunded. */
  ghost predicate RecoveredSnapshot(book: Book, b: Book, now: int) {
    && (forall id | id in book.records && book.records[id].status == ConsumedUnsettled ::
          id in b.records && b.records[id].status == Settled)
    && (forall id | id in book.records && StaleReserved(book.records[id], now) ::
          id in b.records && b.records[id].status == Refunded)
  }

  /** What a pass that nobody interfered with has done. */
  ghost predicate Isolated(book: Book, b: Book, moves: seq<Move>, now: int, handled: seq<string>) {
    Alone(moves) ==>
      && Progress(book.records, b.records, now, Elements(handled))
      && (handled == [] ==> b == book)
      && (Sound(book) ==> Sound(b))
  }

  lemma PassBegins(book: Book, now: int)
    ensures PassSoFar(book, book, []) && Isolated(book, book, [], now, [])
  {
    assert Elements([]) == {};
  }

  lemma {:induction false} OpsAppend(a: seq<Move>, b: seq<Move>)
    ensures OpsOf(a + b) == OpsOf(a) + OpsOf(b)
    decreases |b|
  {
    if b == [] {
      assert a + b == a;
    } else {
      assert (a + b)[..|a + b| - 1] == a + b[..|b| - 1];
      OpsAppend(a, b[..|b| - 1]);
    }
  }

  lemma {:induction false} ForeignOps(ops: seq<Op>)
    ensures OpsOf(Foreigns(ops)) == ops
  {
    if ops != [] {
      ForeignOps(ops[..|ops| - 1]);
      assert Foreigns(ops)[..|ops| - 1] == Foreigns(ops[..|ops| - 1]);
    }
  }

  lemma StillHave(b: Book, ops: seq<Op>, ids: seq<string>, status: Status)
    requires AllHave(b, ids, status) && (status == Settled || status == Refunded)
    ensures AllHave(Run(b, ops), ids, status)
  {
    forall id | id in ids ensures id in Run(b, ops).records && Run(b, ops).records[id].status == status {
      RunLifecycle(b, ops, id);
    }
  }

  lemma OthersMoved(book: Book, b: Book, moves: seq<Move>, ops: seq<Op>, now: int, handled: seq<string>)
    requires PassSoFar(book, b, moves) && Isolated(book, b, moves, now, handled)
    ensures PassSoFar(book, Run(b, ops), moves + Foreigns(ops)) && Isolated(book, Run(b, ops), moves + Foreigns(ops), now, handled)
  {
    PassOthers(book, b, moves, ops);
    if ops == [] {
      assert moves + Foreigns(ops) == moves;
    } else {
      assert !(moves + Foreigns(ops))[|moves|].Own?;
    }
  }

  lemma PassOthers(book: Book, b: Book, moves: seq<Move>, ops: seq<Op>)
    requires PassSoFar(book, b, moves)
    ensures PassSoFar(book, Run(b, ops), moves + Foreigns(ops))
  {
    OpsAppend(moves, Foreigns(ops));
    ForeignOps(ops);
    RunConcat(book, OpsOf(moves), ops);
  }

  lemma PassOwn(book: Book, b: Book, moves: seq<Move>, op: Op)
    requires PassSoFar(book, b, moves) && (op.OpFinalize? || op.OpRefund?)
    ensures PassSoFar(book, Apply(b, op).0, moves + [Own(op)])
  {
    assert (moves + [Own(op)])[..|moves|] == moves;
    RunSnoc(book, OpsOf(moves), op);
  }

  lemma OwnAlone(book: Book, b: Book, id: string, final: Status, now: int, handled: seq<string>)
    requires Progress(book.records, b.records, now, Elements(handled)) && (Sound(book) ==> Sound(b))
    requires (final == Settled || final == Refunded) && id in book.records && Due(book.records[id], final, now)
    ensures var (after, reply) := Apply(b, PayoutOp(id, final));
      && (reply == Done ==> Progress(book.records, after.records, now, Elements(handled + [id])))
      && (Sound(book) ==> reply == Done && Sound(after))
  {
    assert b.records[id] in {book.records[id], Recovered(book.records[id], now)};
    if final == Settled { FinalizeProgress(book.records, b, now, handled, id); } else { RefundProgress(book.records, b, now, handled, id); }
    if Sound(book) { SoundPayout(b, PayoutOp(id, final)); }
  }

  lemma OwnMoved(book: Book, b: Book, moves: seq<Move>, id: string, final: Status, now: int, handled: seq<string>)
    requires PassSoFar(book, b, moves) && Isolated(book, b, moves, now, handled)
    requires (final == Settled || final == Refunded) && id in book.records && Due(book.records[id], final, now)
    ensures var op := PayoutOp(id, final);
      var (after, reply), all := Apply(b, op), moves + [Own(op)];
      && PassSoFar(book, after, all)
      && (reply == Done ==> Isolated(book, after, all, now, handled + [id]))
      && (Alone(all) ==> Progress(book.records, b.records, now, Elements(handled)) && (Sound(book) ==> reply == Done && Sound(after)))
  {
    var all := moves + [Own(PayoutOp(id, final))];
    PassOwn(book, b, moves, PayoutOp(id, final));
    if Alone(all) {
      assert forall i | 0 <= i < |moves| :: moves[i] == all[i];
      OwnAlone(book, b, id, final, now, handled);
    }
  }

  lemma OwnHas(b: Book, id: string, final: Status, ids: seq<string>, settled: seq<string>)
    requires AllHave(b, ids, final) && AllHave(b, settled, Settled) && (final == Settled || final == Refunded)
    ensures var (after, reply) := Apply(b, PayoutOp(id, final));
      && (reply == Done ==> AllHave(after, ids + [id], final)) && AllHave(after, settled, Settled)
      && (reply != Done ==> after == b) && reply != Failed(Ambiguous)
  {
  }

  lemma PayoutLeavesAttemptsAlone(b: Book, op: Op, id: string)
    requires (op.OpFinalize? || op.OpRefund?) && id in b.records && b.records[id].status == InFlight
    ensures id in Apply(b, op).0.records && Apply(b, op).0.records[id] == b.records[id]
  {
  }

  /** Whatever the others do in between, no step of the pass itself changes a record that is in flight. */
  lemma OwnMovesLeaveAttemptsAlone(book: Book, moves: seq<Move>, k: nat, id: string)
    requires OwnPayouts(moves) && k < |moves| && moves[k].Own?
    requires var before := Run(book, OpsOf(moves[..k])); id in before.records && before.records[id].status == InFlight
    ensures var before, after := Run(book, OpsOf(moves[..k])), Run(book, OpsOf(moves[..k + 1]));
      id in after.records && after.records[id] == before.records[id]
  {
    var before := Run(book, OpsOf(moves[..k]));
    assert moves[..k + 1][..k] == moves[..k];
    RunSnoc(book, OpsOf(moves[..k]), moves[k].op);
    PayoutLeavesAttemptsAlone(before, moves[k].op, id);
  }

  ghost function Elements(ids: seq<string>): set<string> { set id | id in ids }

  /** Exactly the handled records are in recovered form, the others as they were. */
  ghost predicate Progress(start: map<string, Record>, cur: map<string, Record>, now: int, handled: set<string>) {
    && cur.Keys == start.Keys
    && forall id | id in start :: cur[id] == if id in handled then Recovered(start[id], now) else start[id]
  }

  lemma RecoveredAll(start: map<string, Record>, b: Book, now: int, handled: seq<string>)
    requires Progress(start, b.records, now, Elements(handled))
    requires forall id | id in start :: start[id].status == ConsumedUnsettled || StaleReserved(start[id], now) ==> id in handled
    ensures b.records == (map id | id in start :: Recovered(start[id], now)) && Quiet(b, now)
  {
  }

  lemma FinalizeProgress(start: map<string, Record>, b: Book, now: int, handled: seq<string>, id: string)
    requires Progress(start, b.records, now, Elements(handled))
    requires id in start && start[id].status == ConsumedUnsettled
    ensures Ledger.Finalize(b, id).1 == Done ==> Progress(start, Ledger.Finalize(b, id).0.records, now, Elements(handled + [id]))
    ensures Ledger.Finalize(b, id).1 != Done ==> Ledger.Finalize(b, id).0 == b
    ensures Ledger.Finalize(b, id).1 != Failed(Ambiguous)
  {
    assert Elements(handled + [id]) == Elements(handled) + {id};
  }

  lemma RefundProgress(start: map<string, Record>, b: Book, now: int, handled: seq<string>, id: string)
    requires Progress(start, b.records, now, Elements(handled))
    requires id in start && StaleReserved(start[id], now)
    ensures Ledger.Refund(b, id).1 == Done ==> Progress(start, Ledger.Refund(b, id).0.records, now, Elements(handled + [id]))
    ensures Ledger.Refund(b, id).1 != Done ==> Ledger.Refund(b, id).0 == b
    ensures Ledger.Refund(b, id).1 != Failed(Ambiguous)
  {
    assert Elements(handled + [id]) == Elements(handled) + {id};
  }
}
