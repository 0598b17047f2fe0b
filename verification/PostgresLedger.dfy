/** The methods of the production ledger: each works on a private copy, any statement may fail and roll it back, and the
    answer of a commit may be lost. */
module PostgresLedger {
  import opened Int64
  import opened Ledger
  import opened PostgresModel

  const STALE_RESERVED_AFTER := 300_000_000_000
  const STALE_IN_FLIGHT_AFTER := 86_400_000_000_000

  /** All or nothing: Done means the whole transaction took effect, an error means none of it did, except that an
      unavailable database may have committed before its answer was lost. */
  ghost predicate Atomic(before: DB, after: DB, tx: Tx, reply: Reply) {
    if reply == Done then (after, Done) == Commit(before, tx)
    else if reply == Failed(Unavailable) then after == before || (after, Done) == Commit(before, tx)
    else after == before && Commit(before, tx).1 == reply
  }

  ghost predicate StaleReserved(row: Row, now: int) { row.status == Reserved && row.updatedAt < now - STALE_RESERVED_AFTER }

  ghost predicate StaleInFlight(row: Row, now: int) { row.status == InFlight && row.updatedAt < now - STALE_IN_FLIGHT_AFTER }

  /** What commits while a recovery pass is under way: its own payouts, and the transactions of everyone else. */
  datatype Move = Own(tx: Tx) | Foreign(tx: Tx)

  function TxsOf(moves: seq<Move>): seq<Tx> {
    if moves == [] then [] else TxsOf(moves[..|moves| - 1]) + [moves[|moves| - 1].tx]
  }

  predicate Alone(moves: seq<Move>) { forall i | 0 <= i < |moves| :: moves[i].Own? }

  predicate OwnPayouts(moves: seq<Move>) {
    forall i | 0 <= i < |moves| && moves[i].Own? :: moves[i].tx.TxFinalize? || moves[i].tx.TxRefund?
  }

  /** The database after the first moves of a pass. */
  function After(start: DB, moves: seq<Move>, k: nat): DB
    requires k <= |moves|
  {
    History(start, TxsOf(moves[..k]))
  }

  class PostgresLedger {
    var db: DB

    constructor (db: DB)
      ensures this.db == db
    {
      this.db := db;
    }

    method CommitTx(tx: DB) returns (reply: Reply)
      modifies this
      ensures reply == Done ==> db == tx
      ensures reply != Done ==> reply == Failed(Unavailable) && (db == tx || db == old(db))
    {
      var applied: bool := *;
      var answered: bool := *;
      if applied || answered {
        db := tx;
      }
      return if answered then Done else Failed(Unavailable);
    }

    method Reserve(r: Reservation, now: int) returns (reply: Reply)
      requires Agreement(db)
      modifies this
      ensures Atomic(old(db), db, TxReserve(r, now), reply)
    {
      if r.maxInput < 0 || r.maxInput > MAX_INT32 || r.maxOutput <= 0 || r.maxOutput > MAX_INT32 {
        return Failed(Conflict);
      }
      if r.id == "" || r.userId == "" || r.amount <= 0 {
        return Failed(Conflict);
      }
      var down: bool := *;
      if down { return Failed(Unavailable); }
      if r.id in db.reservations {
        var row := db.reservations[r.id];
        if !SameReservation(row.reservation, r) {
          return Failed(Conflict);
        }
        if row.status != Reserved {
          return Failed(InvalidTransition);
        }
        reply := CommitTx(db);
        return;
      }
      var inserted := InsertReservation(db, r, now);
      if inserted.None? { return Failed(Unavailable); }
      down := *;
      if down { return Failed(Unavailable); }
      var debited := DebitBalance(inserted.value, r.userId, r.amount);
      if debited.None? { return Refused; }
      down := *;
      if down { return Failed(Unavailable); }
      var entered := InsertEntry(debited.value, debited.value.reservations[r.id], ReserveEntry, -r.amount);
      if entered.None? { return Failed(Unavailable); }
      reply := CommitTx(entered.value);
    }

    method MarkInFlight(id: string, channel: string, now: int) returns (reply: Reply)
      modifies this
      ensures Atomic(old(db), db, TxMark(id, channel, now), reply)
    {
      var down: bool := *;
      if down || id !in db.reservations { return Failed(Unavailable); }
      var row := db.reservations[id];
      if row.status == InFlight {
        if row.channel != channel { return Failed(Conflict); }
        reply := CommitTx(db);
        return;
      }
      if row.status != Reserved { return Failed(InvalidTransition); }
      down := *;
      if down { return Failed(Unavailable); }
      var moved := Transition(db, id, Reserved, row.(status := InFlight, channel := channel, updatedAt := now));
      if moved.None? { return Failed(InvalidTransition); }
      reply := CommitTx(moved.value);
    }

    method ReleaseAttempt(id: string, now: int) returns (reply: Reply)
      modifies this
      ensures Atomic(old(db), db, TxRelease(id, now), reply)
    {
      var down: bool := *;
      if down || id !in db.reservations { return Failed(Unavailable); }
      var row := db.reservations[id];
      if row.status == Reserved {
        reply := CommitTx(db);
        return;
      }
      if row.status != InFlight { return Failed(InvalidTransition); }
      down := *;
      if down { return Failed(Unavailable); }
      var moved := Transition(db, id, InFlight, row.(status := Reserved, updatedAt := now));
      if moved.None? { return Failed(InvalidTransition); }
      reply := CommitTx(moved.value);
    }

    method RecordConsumption(c: Consumption) returns (reply: Reply)
      modifies this
      ensures Atomic(old(db), db, TxRecord(c), reply)
    {
      if c.reservationId == "" || c.cost < 0 { return Failed(Conflict); }
      var values := [c.input, c.output, c.creation, c.read, c.reportedTotal];
      for i := 0 to |values|
        invariant forall j | 0 <= j < i :: FitsInt32(values[j])
      {
        if !FitsInt32(values[i]) { return Failed(Conflict); }
      }
      assert FitsInt32(values[0]) && FitsInt32(values[1]) && FitsInt32(values[2]) && FitsInt32(values[3]) && FitsInt32(values[4]);
      var down: bool := *;
      if down { return Failed(Unavailable); }
      if c.reservationId !in db.reservations { return Failed(InvalidTransition); }
      var row := db.reservations[c.reservationId];
      match row.status {
        case InFlight =>
          if row.channel != c.channel { return Failed(Conflict); }
          down := *;
          if down || c.cost > row.reservation.amount { return Failed(Unavailable); }
          var moved := Transition(db, c.reservationId, InFlight,
                                  row.(status := ConsumedUnsettled, channel := c.channel, fact := FactOf(c), updatedAt := c.recordedAt));
          if moved.None? { return Failed(InvalidTransition); }
          reply := CommitTx(moved.value);
        case ConsumedUnsettled =>
          if !SameFact(row, c) { return Failed(Conflict); }
          reply := CommitTx(db);
        case Settled =>
          if !SameFact(row, c) { return Failed(Conflict); }
          reply := CommitTx(db);
        case _ =>
          return Failed(InvalidTransition);
      }
    }

    method Finalize(id: string, now: int) returns (reply: Reply)
      requires Agreement(db)
      modifies this
      ensures Atomic(old(db), db, TxFinalize(id, now), reply)
    {
      var down: bool := *;
      if down { return Failed(Unavailable); }
      if id !in db.reservations { return Failed(InvalidTransition); }
      var row := db.reservations[id];
      if row.status == Settled {
        reply := CommitTx(db);
        return;
      }
      if row.status != ConsumedUnsettled { return Failed(InvalidTransition); }
      if row.fact.cost < 0 { return Failed(Conflict); }
      if row.fact.cost > row.reservation.amount { return Failed(Exceeded); }
      var delta := row.reservation.amount - row.fact.cost;
      var paid := AdjustBalance(db, row.reservation.userId, delta);
      down := *;
      if down || paid.None? { return Failed(Unavailable); }
      var entered := InsertEntry(paid.value, row, SettleEntry, delta);
      down := *;
      if down || entered.None? { return Failed(Unavailable); }
      var used := InsertUsage(entered.value, row);
      down := *;
      if down || used.None? { return Failed(Unavailable); }
      var moved := Transition(used.value, id, ConsumedUnsettled, row.(status := Settled, updatedAt := now));
      down := *;
      if down { return Failed(Unavailable); }
      if moved.None? { return Failed(InvalidTransition); }
      reply := CommitTx(moved.value);
    }

    method Refund(id: string, now: int) returns (reply: Reply)
      requires Agreement(db)
      modifies this
      ensures Atomic(old(db), db, TxRefund(id, now), reply)
    {
      var down: bool := *;
      if down { return Failed(Unavailable); }
      if id !in db.reservations { return Failed(InvalidTransition); }
      var row := db.reservations[id];
      if row.status == Refunded {
        reply := CommitTx(db);
        return;
      }
      if row.status != Reserved { return Failed(InvalidTransition); }
      var paid := AdjustBalance(db, row.reservation.userId, row.reservation.amount);
      down := *;
      if down || paid.None? { return Failed(Unavailable); }
      var entered := InsertEntry(paid.value, row, RefundEntry, row.reservation.amount);
      down := *;
      if down || entered.None? { return Failed(Unavailable); }
      var moved := Transition(entered.value, id, Reserved, row.(status := Refunded, updatedAt := now));
      down := *;
      if down { return Failed(Unavailable); }
      if moved.None? { return Failed(InvalidTransition); }
      reply := CommitTx(moved.value);
    }

    /** A SELECT of ids: every id of the set, in some order. */
    static method List(ids: set<string>) returns (rows: seq<string>)
      ensures forall id :: id in rows <==> id in ids
    {
      rows := [];
      var rest := ids;
      while rest != {}
        invariant rest <= ids && forall id :: id in rows <==> id in ids && id !in rest
        decreases rest
      {
        var id :| id in rest;
        rows, rest := rows + [id], rest - {id};
      }
    }

    /** Other processes commit for a while. */
    method Interfere(ghost start: DB, ghost past: seq<Move>) returns (ghost moves: seq<Move>)
      requires Passing(start, db, past)
      modifies this
      ensures Passing(start, db, moves) && past <= moves
      ensures forall i | |past| <= i < |moves| :: moves[i].Foreign?
      ensures Kept(old(db), db)
      ensures moves == past ==> db == old(db)
    {
      moves := past;
      var steps: nat := *;
      while steps > 0
        invariant Passing(start, db, moves) && past <= moves && Kept(old(db), db)
        invariant forall i | |past| <= i < |moves| :: moves[i].Foreign?
        invariant moves == past ==> db == old(db)
        decreases steps
      {
        var tx: Tx := *;
        PassingSnoc(start, db, moves, Foreign(tx));
        CommitKeeps(db, tx);
        db := Commit(db, tx).0;
        moves := moves + [Foreign(tx)];
        steps := steps - 1;
      }
    }

    /** One payout of a pass, in any state the others have left it. */
    method PayNext(id: string, final: Status, now: int, ghost start: DB, ghost past: seq<Move>)
      returns (reply: Reply, ghost moves: seq<Move>)
      requires final == Settled || final == Refunded
      requires Passing(start, db, past)
      modifies this
      ensures Passing(start, db, moves) && past <= moves && Kept(old(db), db)
      ensures reply == Done ==> AllHave(db, [id], final)
    {
      moves := Interfere(start, past);
      ghost var was := db;
      if final == Settled {
        reply := Finalize(id, now);
        moves := PayoutStep(start, was, db, moves, TxFinalize(id, now), reply);
      } else {
        reply := Refund(id, now);
        moves := PayoutStep(start, was, db, moves, TxRefund(id, now), reply);
      }
    }

    /** Each id in its own transaction; a failure of one is remembered and does not stop the rest. */
    method PayAll(ids: seq<string>, final: Status, now: int, ghost start: DB, ghost past: seq<Move>)
      returns (ok: bool, ghost moves: seq<Move>)
      requires final == Settled || final == Refunded
      requires Passing(start, db, past)
      modifies this
      ensures Passing(start, db, moves) && past <= moves && Kept(old(db), db)
      ensures ok ==> AllHave(db, ids, final)
      ensures ids == [] ==> moves == past && db == old(db)
    {
      ok, moves := true, past;
      for i := 0 to |ids|
        invariant Passing(start, db, moves) && past <= moves && Kept(old(db), db)
        invariant ok ==> AllHave(db, ids[..i], final)
        invariant i == 0 ==> moves == past && db == old(db)
      {
        ghost var was := db;
        var reply: Reply;
        reply, moves := PayNext(ids[i], final, now, start, moves);
        ok := ok && reply == Done;
        if ok { AlsoHas(was, db, ids[..i], ids[i], final); }
        assert ids[..i + 1] == ids[..i] + [ids[i]];
      }
      assert ids[..|ids|] == ids;
    }

    method PayBoth(consumed: seq<string>, abandoned: seq<string>, now: int, ghost start: DB, ghost past: seq<Move>)
      returns (ok: bool, ghost moves: seq<Move>)
      requires Passing(start, db, past)
      modifies this
      ensures Passing(start, db, moves) && past <= moves
      ensures ok ==> AllHave(db, consumed, Settled) && AllHave(db, abandoned, Refunded)
      ensures consumed == [] && abandoned == [] ==> db == old(db)
    {
      var refunded: bool;
      ok, moves := PayAll(consumed, Settled, now, start, past);
      ghost var was := db;
      refunded, moves := PayAll(abandoned, Refunded, now, start, moves);
      if ok { StillHave(was, db, consumed); }
      ok := ok && refunded;
    }

    /** A query of a pass sees what is committed when it is sent, and others go on committing until then. */
    method AskDue(final: Status, now: int, ghost start: DB, ghost past: seq<Move>) returns (ids: seq<string>, ghost moves: seq<Move>)
      requires Passing(start, db, past)
      modifies this
      ensures Passing(start, db, moves) && past <= moves && forall i | |past| <= i < |moves| :: moves[i].Foreign?
      ensures Listed(ids, After(start, moves, |moves|), final, now)
    {
      moves := Interfere(start, past);
      assert moves[..|moves|] == moves;
      var rows := db.reservations;
      if final == Settled {
        ids := List(set id | id in rows && rows[id].status == ConsumedUnsettled);
      } else {
        ids := List(set id | id in rows && rows[id].status == Reserved && rows[id].updatedAt < now - STALE_RESERVED_AFTER);
      }
    }

    method AskStuck(now: int, ghost start: DB, ghost past: seq<Move>) returns (stuck: seq<string>, ghost moves: seq<Move>)
      requires Passing(start, db, past)
      modifies this
      ensures Passing(start, db, moves) && past <= moves && forall i | |past| <= i < |moves| :: moves[i].Foreign?
      ensures stuck == [] <==> !HasStale(After(start, moves, |moves|), now)
    {
      moves := Interfere(start, past);
      assert moves[..|moves|] == moves;
      var rows := db.reservations;
      stuck := List(set id | id in rows && rows[id].status == InFlight && rows[id].updatedAt < now - STALE_IN_FLIGHT_AFTER);
      if stuck == [] {
        assert forall id | id in rows && StaleInFlight(rows[id], now) :: id in stuck;
      } else {
        assert stuck[0] in stuck && StaleInFlight(rows[stuck[0]], now);
      }
    }

    /** The three queries of a pass. */
    method Ask(now: int) returns (consumed: seq<string>, abandoned: seq<string>, stuck: seq<string>,
                                  ghost moves: seq<Move>, ghost first: nat, ghost second: nat)
      requires Agreement(db)
      modifies this
      ensures Passing(old(db), db, moves) && first <= second <= |moves| && forall i | 0 <= i < |moves| :: moves[i].Foreign?
      ensures Listed(consumed, After(old(db), moves, first), Settled, now)
      ensures Listed(abandoned, After(old(db), moves, second), Refunded, now)
      ensures stuck == [] <==> !HasStale(After(old(db), moves, |moves|), now)
    {
      ghost var start := db;
      ghost var one, two: seq<Move>;
      consumed, one := AskDue(Settled, now, start, []);
      abandoned, two := AskDue(Refunded, now, start, one);
      stuck, moves := AskStuck(now, start, two);
      first, second := |one|, |two|;
      assert one <= two <= moves;
      SameStart(start, one, moves, first);
      SameStart(start, two, moves, second);
    }

    /** One recovery pass: settle every recorded consumption, refund every abandoned reservation, report stale attempts
        without touching them. The pass says after how many moves each query saw the database. */
    method Recover(now: int) returns (reply: Reply, ghost moves: seq<Move>, ghost first: nat, ghost second: nat, ghost third: nat)
      requires Agreement(db)
      modifies this
      ensures Passing(old(db), db, moves) && first <= second <= third <= |moves|
      ensures forall i | 0 <= i < third :: moves[i].Foreign?
      ensures reply == Done || reply == Failed(Ambiguous) ==>
        SettledSince(After(old(db), moves, first), db) && RefundedSince(After(old(db), moves, second), db, now)
      ensures reply == Done ==> !HasStale(After(old(db), moves, third), now)
      ensures reply == Failed(Ambiguous) ==> HasStale(After(old(db), moves, third), now)
      ensures Alone(moves) && (reply == Done || reply == Failed(Ambiguous)) ==> Quiet(db, now)
      ensures Alone(moves) && Quiet(old(db), now) ==> db == old(db)
    {
      moves, first, second, third := [], 0, 0, 0;
      var down: bool := *;
      if down { return Failed(Unavailable), [], 0, 0, 0; }
      ghost var start := db;
      var consumed, abandoned, stuck;
      ghost var asked: seq<Move>;
      consumed, abandoned, stuck, asked, first, second := Ask(now);
      third := |asked|;
      assert asked[..third] == asked;
      down := *;
      if down {
        NoneForeign(asked, asked);
        return Failed(Unavailable), asked, first, second, third;
      }
      var paid: bool;
      paid, moves := PayBoth(consumed, abandoned, now, start, asked);
      SameStart(start, asked, moves, first);
      SameStart(start, asked, moves, second);
      SameStart(start, asked, moves, third);
      if Alone(moves) { AskedAlone(start, asked, moves, consumed, abandoned, first, second, now); }
      if !paid { return Failed(Unavailable), moves, first, second, third; }
      if Alone(moves) { NothingLeft(start, db, consumed, abandoned, now); }
      return if stuck != [] then Failed(Ambiguous) else Done, moves, first, second, third;
    }
  }

  /** Exactly the ids a payout of this kind is due for. */
  ghost predicate Listed(ids: seq<string>, db: DB, final: Status, now: int) {
    forall id :: id in ids <==> id in db.reservations && Due(db.reservations[id], final, now)
  }

  ghost predicate Due(row: Row, final: Status, now: int) {
    if final == Settled then row.status == ConsumedUnsettled else StaleReserved(row, now)
  }

  lemma SameStart(start: DB, asked: seq<Move>, moves: seq<Move>, k: nat)
    requires k <= |asked| && asked <= moves
    ensures After(start, moves, k) == After(start, asked, k)
  {
    assert moves[..k] == asked[..k];
  }

  lemma AlsoHas(was: DB, db: DB, ids: seq<string>, id: string, final: Status)
    requires AllHave(was, ids, final) && Kept(was, db) && AllHave(db, [id], final) && (final == Settled || final == Refunded)
    ensures AllHave(db, ids + [id], final)
  {
    assert id in [id];
  }

  lemma StillHave(was: DB, db: DB, ids: seq<string>)
    requires AllHave(was, ids, Settled) && Kept(was, db)
    ensures AllHave(db, ids, Settled)
  {
  }

  /** Alone, all three queries see the database the pass began with. */
  lemma AskedAlone(start: DB, asked: seq<Move>, moves: seq<Move>, consumed: seq<string>, abandoned: seq<string>,
                   first: nat, second: nat, now: int)
    requires Alone(moves) && asked <= moves && first <= second <= |asked| && forall i | 0 <= i < |asked| :: asked[i].Foreign?
    requires Listed(consumed, After(start, asked, first), Settled, now) && Listed(abandoned, After(start, asked, second), Refunded, now)
    ensures asked == [] && Listed(consumed, start, Settled, now) && Listed(abandoned, start, Refunded, now)
    ensures Quiet(start, now) ==> consumed == [] && abandoned == []
  {
    NoneForeign(asked, moves);
    assert After(start, asked, 0) == start by { assert asked[..0] == []; }
    if consumed != [] { assert consumed[0] in consumed; }
    if abandoned != [] { assert abandoned[0] in abandoned; }
  }

  lemma NoneForeign(asked: seq<Move>, moves: seq<Move>)
    requires asked <= moves && forall i | 0 <= i < |asked| :: asked[i].Foreign?
    ensures Alone(moves) ==> asked == []
  {
    if asked != [] {
      assert moves[0] == asked[0];
      assert !Alone(moves);
    }
  }

  lemma NothingLeft(start: DB, db: DB, consumed: seq<string>, abandoned: seq<string>, now: int)
    requires OnlyPaid(start, db) && Listed(consumed, start, Settled, now) && Listed(abandoned, start, Refunded, now)
    requires AllHave(db, consumed, Settled) && AllHave(db, abandoned, Refunded)
    ensures Quiet(db, now)
  {
    forall id | id in db.reservations
      ensures db.reservations[id].status != ConsumedUnsettled && !StaleReserved(db.reservations[id], now)
    {
      assert id in start.reservations;
    }
  }

  /** Every consumption recorded then is settled now. */
  ghost predicate SettledSince(before: DB, db: DB) {
    forall id | id in before.reservations && before.reservations[id].status == ConsumedUnsettled ::
      id in db.reservations && db.reservations[id].status == Settled
  }

  /** Every reservation abandoned then is refunded now. */
  ghost predicate RefundedSince(before: DB, db: DB, now: int) {
    forall id | id in before.reservations && StaleReserved(before.reservations[id], now) ::
      id in db.reservations && db.reservations[id].status == Refunded
  }

  ghost predicate HasStale(db: DB, now: int) { exists id :: id in db.reservations && StaleInFlight(db.reservations[id], now) }

  /** Nothing left for a pass at this clock to change. */
  ghost predicate Quiet(db: DB, now: int) {
    forall id | id in db.reservations :: db.reservations[id].status != ConsumedUnsettled && !StaleReserved(db.reservations[id], now)
  }

  /** Terminal rows stay terminal. */
  ghost predicate Kept(was: DB, db: DB) {
    forall id | id in was.reservations && (was.reservations[id].status.Settled? || was.reservations[id].status.Refunded?) ::
      id in db.reservations && db.reservations[id] == was.reservations[id]
  }

  lemma CommitKeeps(db: DB, tx: Tx)
    ensures Kept(db, Commit(db, tx).0)
  {
  }

  ghost predicate AllHave(db: DB, ids: seq<string>, status: Status) {
    forall id | id in ids :: id in db.reservations && db.reservations[id].status == status
  }

  /** Each row is as it was, or paid out. */
  ghost predicate OnlyPaid(before: DB, db: DB) {
    && before.reservations.Keys == db.reservations.Keys
    && forall id | id in before.reservations ::
      var row, after := before.reservations[id], db.reservations[id];
      after == row || (row.status.ConsumedUnsettled? && after.status.Settled?) || (row.status.Reserved? && after.status.Refunded?)
  }

  /** A pass in progress: only payouts of its own, between any transactions of others. */
  ghost predicate Passing(start: DB, db: DB, moves: seq<Move>) {
    Agreement(db) && OwnPayouts(moves) && db == History(start, TxsOf(moves)) && (Alone(moves) ==> OnlyPaid(start, db))
  }

  lemma PassingSnoc(start: DB, was: DB, moves: seq<Move>, m: Move)
    requires Passing(start, was, moves) && (m.Own? ==> m.tx.TxFinalize? || m.tx.TxRefund?)
    ensures Passing(start, Commit(was, m.tx).0, moves + [m])
  {
    var all := moves + [m];
    CommitAgrees(was, m.tx, "", 0);
    assert all[..|moves|] == moves && all[|moves|] == m;
    assert TxsOf(all)[..|TxsOf(moves)|] == TxsOf(moves);
    if Alone(all) {
      assert forall i | 0 <= i < |moves| :: moves[i] == all[i];
      PayoutsMove(was, m.tx);
    }
  }

  /** Accounts for one payout of the pass, whether or not it took effect. */
  ghost function PayoutStep(start: DB, was: DB, db: DB, moves: seq<Move>, tx: Tx, reply: Reply): (r: seq<Move>)
    requires Passing(start, was, moves) && (tx.TxFinalize? || tx.TxRefund?) && Atomic(was, db, tx, reply)
    ensures Passing(start, db, r) && moves <= r
    ensures Kept(was, db)
    ensures reply == Done ==> AllHave(db, [tx.id], if tx.TxFinalize? then Settled else Refunded)
  {
    assert db == was || db == Commit(was, tx).0;
    PassingSnoc(start, was, moves, Own(tx));
    PayoutsMove(was, tx);
    if db == was then moves else moves + [Own(tx)]
  }

  lemma PayoutsMove(db: DB, tx: Tx)
    requires tx.TxFinalize? || tx.TxRefund?
    ensures OnlyPaid(db, Commit(db, tx).0) && Kept(db, Commit(db, tx).0)
    ensures Commit(db, tx).1 == Done ==> AllHave(Commit(db, tx).0, [tx.id], if tx.TxFinalize? then Settled else Refunded)
  {
  }

  /** Whatever the others commit in between, no payout of the pass changes a row that is in flight. */
  lemma OwnMovesLeaveAttemptsAlone(start: DB, moves: seq<Move>, k: nat, id: string)
    requires OwnPayouts(moves) && k < |moves| && moves[k].Own?
    requires id in After(start, moves, k).reservations && After(start, moves, k).reservations[id].status == InFlight
    ensures id in After(start, moves, k + 1).reservations
    ensures After(start, moves, k + 1).reservations[id] == After(start, moves, k).reservations[id]
  {
    var txs := TxsOf(moves[..k]);
    assert moves[..k + 1][..k] == moves[..k];
    assert (txs + [moves[k].tx])[..|txs|] == txs;
    PayoutsMove(History(start, txs), moves[k].tx);
  }
}
