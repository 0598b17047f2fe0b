/** The production ledger: guarded statements over four tables, grouped into transactions that roll back when any
    statement fails. Its journal explains every balance, and each committed transaction refines a step of the book. */
module PostgresModel {
  import opened Int64
  import opened Ledger

  const MAX_INT32: int := 0x7fff_ffff
  const MIN_INT32: int := -0x8000_0000

  datatype UserRow = UserRow(balance: int64, version: nat, enabled: bool)

  /** The consumption columns; all zero until a consumption is recorded. */
  datatype Fact = Fact(input: int64, output: int64, creation: int64, read: int64, reportedTotal: int64,
                       cost: int64, complete: bool, estimated: bool)

  const NO_FACT := Fact(0, 0, 0, 0, 0, 0, false, false)

  datatype Row = Row(reservation: Reservation, status: Status, channel: string, fact: Fact, updatedAt: int)

  datatype Kind = ReserveEntry | SettleEntry | RefundEntry

  datatype Entry = Entry(reservationId: string, userId: string, kind: Kind, amount: int,
                         balanceAfter: int64, balanceVersion: nat)

  datatype UsageRow = UsageRow(requestId: string, userId: string, keyId: string, model: string, channel: string, fact: Fact)

  datatype DB = DB(users: map<string, UserRow>, reservations: map<string, Row>, journal: seq<Entry>, usage: seq<UsageRow>)

  // ---- statements: None is a database error or, where a row is expected, no row ----

  /** ON CONFLICT DO NOTHING; the table checks amounts and bounds and that the user exists. */
  function InsertReservation(db: DB, r: Reservation, now: int): Option<DB>
    requires r.id !in db.reservations
  {
    if r.userId !in db.users || r.amount <= 0 || r.maxInput < 0 || r.maxOutput <= 0 then None
    else Some(db.(reservations := db.reservations[r.id := Row(r, Reserved, "", NO_FACT, now)]))
  }

  function DebitBalance(db: DB, user: string, amount: int64): Option<DB> {
    if user in db.users && db.users[user].enabled && amount > 0 && db.users[user].balance >= amount
    then Some(SetBalance(db, user, db.users[user].balance - amount))
    else None
  }

  function AdjustBalance(db: DB, user: string, delta: int): Option<DB> {
    if user in db.users && MIN_INT64 <= db.users[user].balance + delta <= MAX_INT64
    then Some(SetBalance(db, user, db.users[user].balance + delta))
    else None
  }

  function SetBalance(db: DB, user: string, balance: int64): DB
    requires user in db.users
  {
    db.(users := db.users[user := db.users[user].(balance := balance, version := db.users[user].version + 1)])
  }

  /** UNIQUE (reservation_id, kind); balance and version are those the same transaction has just returned. */
  function InsertEntry(db: DB, row: Row, kind: Kind, amount: int): Option<DB> {
    var user := row.reservation.userId;
    if user !in db.users || exists e | e in db.journal :: e.reservationId == row.reservation.id && e.kind == kind then None
    else Some(db.(journal := db.journal + [Entry(row.reservation.id, user, kind, amount,
                                                 db.users[user].balance, db.users[user].version)]))
  }

  /** UNIQUE (request_id). */
  function InsertUsage(db: DB, row: Row): Option<DB> {
    if exists u | u in db.usage :: u.requestId == row.reservation.id then None
    else Some(db.(usage := db.usage + [UsageOf(row)]))
  }

  function UsageOf(row: Row): UsageRow {
    UsageRow(row.reservation.id, row.reservation.userId, row.reservation.keyId, row.reservation.model, row.channel, row.fact)
  }

  /** UPDATE … WHERE reservation_id = id AND status = from; None when no row matches. */
  function Transition(db: DB, id: string, from: Status, row: Row): Option<DB> {
    if id in db.reservations && db.reservations[id].status == from
    then Some(db.(reservations := db.reservations[id := row]))
    else None
  }

  // ---- transactions without faults ----

  function Committed(before: DB, after: Option<DB>): (DB, Reply) {
    if after.Some? then (after.value, Done) else (before, Failed(Unavailable))
  }

  predicate FitsInt32(v: int64) { MIN_INT32 <= v <= MAX_INT32 }

  function ReserveTx(db: DB, r: Reservation, now: int): (DB, Reply) {
    if r.maxInput < 0 || r.maxInput > MAX_INT32 || r.maxOutput <= 0 || r.maxOutput > MAX_INT32
       || r.id == "" || r.userId == "" || r.amount <= 0 then (db, Failed(Conflict))
    else if r.id in db.reservations then
      var row := db.reservations[r.id];
      if !SameReservation(row.reservation, r) then (db, Failed(Conflict))
      else if row.status != Reserved then (db, Failed(InvalidTransition))
      else (db, Done)
    else
      var inserted := InsertReservation(db, r, now);
      if inserted.None? then (db, Failed(Unavailable)) else
      var debited := DebitBalance(inserted.value, r.userId, r.amount);
      if debited.None? then (db, Refused)
      else Committed(db, InsertEntry(debited.value, debited.value.reservations[r.id], ReserveEntry, -r.amount))
  }

  function MarkTx(db: DB, id: string, channel: string, now: int): (DB, Reply) {
    if id !in db.reservations then (db, Failed(Unavailable))
    else
      var row := db.reservations[id];
      if row.status == InFlight then (db, if row.channel != channel then Failed(Conflict) else Done)
      else if row.status != Reserved then (db, Failed(InvalidTransition))
      else Committed(db, Transition(db, id, Reserved, row.(status := InFlight, channel := channel, updatedAt := now)))
  }

  function ReleaseTx(db: DB, id: string, now: int): (DB, Reply) {
    if id !in db.reservations then (db, Failed(Unavailable))
    else
      var row := db.reservations[id];
      if row.status == Reserved then (db, Done)
      else if row.status != InFlight then (db, Failed(InvalidTransition))
      else Committed(db, Transition(db, id, InFlight, row.(status := Reserved, updatedAt := now)))
  }

  function FactOf(c: Consumption): Fact {
    Fact(c.input, c.output, c.creation, c.read, c.reportedTotal, c.cost, c.complete, c.estimated)
  }

  predicate SameFact(row: Row, c: Consumption) {
    row.reservation.id == c.reservationId && row.channel == c.channel && row.fact == FactOf(c)
  }

  function RecordTx(db: DB, c: Consumption): (DB, Reply) {
    if c.reservationId == "" || c.cost < 0 || !FitsInt32(c.input) || !FitsInt32(c.output) || !FitsInt32(c.creation)
       || !FitsInt32(c.read) || !FitsInt32(c.reportedTotal) then (db, Failed(Conflict))
    else if c.reservationId !in db.reservations then (db, Failed(InvalidTransition))
    else
      var row := db.reservations[c.reservationId];
      match row.status
      case InFlight =>
        if row.channel != c.channel then (db, Failed(Conflict))
        else if c.cost > row.reservation.amount then (db, Failed(Unavailable)) // CHECK (cost <= amount)
        else Committed(db, Transition(db, c.reservationId, InFlight,
                                      row.(status := ConsumedUnsettled, channel := c.channel, fact := FactOf(c), updatedAt := c.recordedAt)))
      case ConsumedUnsettled => (db, if SameFact(row, c) then Done else Failed(Conflict))
      case Settled => (db, if SameFact(row, c) then Done else Failed(Conflict))
      case _ => (db, Failed(InvalidTransition))
  }

  function FinalizeTx(db: DB, id: string, now: int): (DB, Reply) {
    if id !in db.reservations then (db, Failed(InvalidTransition))
    else
      var row := db.reservations[id];
      if row.status == Settled then (db, Done)
      else if row.status != ConsumedUnsettled then (db, Failed(InvalidTransition))
      else if row.fact.cost < 0 then (db, Failed(Conflict))
      else if row.fact.cost > row.reservation.amount then (db, Failed(Exceeded))
      else
        var delta := row.reservation.amount - row.fact.cost;
        var paid := AdjustBalance(db, row.reservation.userId, delta);
        if paid.None? then (db, Failed(Unavailable)) else
        var entered := InsertEntry(paid.value, row, SettleEntry, delta);
        if entered.None? then (db, Failed(Unavailable)) else
        var used := InsertUsage(entered.value, row);
        if used.None? then (db, Failed(Unavailable))
        else Committed(db, Transition(used.value, id, ConsumedUnsettled, row.(status := Settled, updatedAt := now)))
  }

  function RefundTx(db: DB, id: string, now: int): (DB, Reply) {
    if id !in db.reservations then (db, Failed(InvalidTransition))
    else
      var row := db.reservations[id];
      if row.status == Refunded then (db, Done)
      else if row.status != Reserved then (db, Failed(InvalidTransition))
      else
        var paid := AdjustBalance(db, row.reservation.userId, row.reservation.amount);
        if paid.None? then (db, Failed(Unavailable)) else
        var entered := InsertEntry(paid.value, row, RefundEntry, row.reservation.amount);
        if entered.None? then (db, Failed(Unavailable))
        else Committed(db, Transition(entered.value, id, Reserved, row.(status := Refunded, updatedAt := now)))
  }

  function CreateUserTx(db: DB, user: string, balance: int64, enabled: bool): (DB, Reply) {
    if user in db.users then (db, Failed(UserExists))
    else (db.(users := db.users[user := UserRow(balance, 0, enabled)]), Done)
  }

  function SetEnabledTx(db: DB, user: string, enabled: bool): (DB, Reply) {
    if user !in db.users then (db, Failed(UserNotFound))
    else (db.(users := db.users[user := db.users[user].(enabled := enabled)]), Done)
  }

  datatype Tx =
    | TxReserve(r: Reservation, now: int)
    | TxMark(id: string, channel: string, now: int)
    | TxRelease(id: string, now: int)
    | TxRecord(c: Consumption)
    | TxFinalize(id: string, now: int)
    | TxRefund(id: string, now: int)
    | TxAdminAdd(user: string, delta: int64)
    | TxCreateUser(user: string, balance: int64, enabled: bool)
    | TxSetEnabled(user: string, enabled: bool)

  function Commit(db: DB, tx: Tx): (DB, Reply) {
    match tx
    case TxReserve(r, now) => ReserveTx(db, r, now)
    case TxMark(id, channel, now) => MarkTx(db, id, channel, now)
    case TxRelease(id, now) => ReleaseTx(db, id, now)
    case TxRecord(c) => RecordTx(db, c)
    case TxFinalize(id, now) => FinalizeTx(db, id, now)
    case TxRefund(id, now) => RefundTx(db, id, now)
    case TxAdminAdd(user, delta) => Committed(db, AdjustBalance(db, user, delta))
    case TxCreateUser(user, balance, enabled) => CreateUserTx(db, user, balance, enabled)
    case TxSetEnabled(user, enabled) => SetEnabledTx(db, user, enabled)
  }

  /** A transaction that rolled back, at whatever statement, is one that does not appear in the sequence. */
  function History(db: DB, txs: seq<Tx>): DB {
    if txs == [] then db else Commit(History(db, txs[..|txs| - 1]), txs[|txs| - 1]).0
  }

  lemma RolledBackUnlessDone(db: DB, tx: Tx)
    ensures Commit(db, tx).1 != Done ==> Commit(db, tx).0 == db
  {
  }

  // ---- the journal explains the state ----

  /** The journal rows of one reservation, without the audit columns. */
  function EntriesOf(journal: seq<Entry>, id: string): seq<(Kind, string, int)> {
    if journal == [] then []
    else
      var last := journal[|journal| - 1];
      EntriesOf(journal[..|journal| - 1], id) + if last.reservationId == id then [(last.kind, last.userId, last.amount)] else []
  }

  function ExpectedEntries(row: Row): seq<(Kind, string, int)> {
    var user := row.reservation.userId;
    var debit: int := 0 - (row.reservation.amount as int);
    [(ReserveEntry, user, debit)]
    + match row.status
      case Settled => [(SettleEntry, user, row.reservation.amount - row.fact.cost)]
      case Refunded => [(RefundEntry, user, row.reservation.amount)]
      case _ => []
  }

  function UsageRowsOf(usage: seq<UsageRow>, id: string): seq<UsageRow> {
    if usage == [] then []
    else UsageRowsOf(usage[..|usage| - 1], id) + if usage[|usage| - 1].requestId == id then [usage[|usage| - 1]] else []
  }

  function JournalSum(journal: seq<Entry>, user: string): int {
    if journal == [] then 0
    else JournalSum(journal[..|journal| - 1], user) + if journal[|journal| - 1].userId == user then journal[|journal| - 1].amount else 0
  }

  ghost predicate RowExplained(db: DB, id: string) {
    if id !in db.reservations then EntriesOf(db.journal, id) == [] && UsageRowsOf(db.usage, id) == []
    else
      var row := db.reservations[id];
      && row.reservation.id == id && 0 < row.reservation.amount && row.reservation.userId in db.users
      && 0 <= row.fact.cost <= row.reservation.amount
      && EntriesOf(db.journal, id) == ExpectedEntries(row)
      && var rows := UsageRowsOf(db.usage, id);
      if row.status.Settled? then |rows| == 1 && Describes(rows[0], row) else rows == []
  }

  ghost predicate Describes(u: UsageRow, row: Row) {
    && u.requestId == row.reservation.id && u.userId == row.reservation.userId && u.keyId == row.reservation.keyId
    && u.model == row.reservation.model && u.channel == row.channel && u.fact == row.fact
  }

  ghost predicate BalanceExplained(db: DB, user: string, credit: int) {
    (if user in db.users then db.users[user].balance else 0) == credit + JournalSum(db.journal, user)
  }

  /** Per user the audit versions ascend, and the row carrying the current version carries the current balance. */
  ghost predicate AuditTrail(db: DB) {
    && (forall i | 0 <= i < |db.journal| ::
          var e := db.journal[i];
          && e.userId in db.users && e.balanceVersion <= db.users[e.userId].version
          && (e.balanceVersion == db.users[e.userId].version ==> e.balanceAfter == db.users[e.userId].balance))
    && (forall i, j | 0 <= i < j < |db.journal| && db.journal[i].userId == db.journal[j].userId ::
          db.journal[i].balanceVersion < db.journal[j].balanceVersion)
  }

  ghost predicate Agreement(db: DB) {
    (forall id :: RowExplained(db, id)) && AuditTrail(db)
  }

  lemma {:induction false} EntryMember(journal: seq<Entry>, e: Entry)
    requires e in journal
    ensures (e.kind, e.userId, e.amount) in EntriesOf(journal, e.reservationId)
  {
    if journal[|journal| - 1] != e {
      EntryMember(journal[..|journal| - 1], e);
    }
  }

  lemma {:induction false} UsageMember(usage: seq<UsageRow>, u: UsageRow)
    requires u in usage
    ensures u in UsageRowsOf(usage, u.requestId)
  {
    if usage[|usage| - 1] != u {
      UsageMember(usage[..|usage| - 1], u);
    }
  }

  lemma AppendEntry(journal: seq<Entry>, e: Entry, id: string, user: string)
    ensures EntriesOf(journal + [e], id)
         == EntriesOf(journal, id) + if e.reservationId == id then [(e.kind, e.userId, e.amount)] else []
    ensures JournalSum(journal + [e], user) == JournalSum(journal, user) + if e.userId == user then e.amount else 0
  {
    assert (journal + [e])[..|journal|] == journal;
  }

  lemma AppendUsage(usage: seq<UsageRow>, u: UsageRow, id: string)
    ensures UsageRowsOf(usage + [u], id) == UsageRowsOf(usage, id) + if u.requestId == id then [u] else []
  {
    assert (usage + [u])[..|usage|] == usage;
  }

  lemma EntryFree(db: DB, id: string, kind: Kind)
    requires RowExplained(db, id)
    requires forall x | x in EntriesOf(db.journal, id) :: x.0 != kind
    ensures !exists e | e in db.journal :: e.reservationId == id && e.kind == kind
  {
    forall e | e in db.journal && e.reservationId == id ensures e.kind != kind {
      EntryMember(db.journal, e);
    }
  }

  lemma UsageFree(db: DB, id: string)
    requires UsageRowsOf(db.usage, id) == []
    ensures !exists u | u in db.usage :: u.requestId == id
  {
    forall u | u in db.usage && u.requestId == id ensures false {
      UsageMember(db.usage, u);
    }
  }

  // ---- agreement is kept by every transaction ----

  /** A payment: one user's balance moves by delta, one journal row says so, one reservation row changes with it. */
  ghost predicate Payment(db: DB, after: DB, row: Row, kind: Kind, delta: int) {
    var user, id := row.reservation.userId, row.reservation.id;
    && user in db.users && MIN_INT64 <= db.users[user].balance + delta <= MAX_INT64
    && after.users == SetBalance(db, user, db.users[user].balance + delta).users
    && after.journal == db.journal + [Entry(id, user, kind, delta, db.users[user].balance + delta, db.users[user].version + 1)]
    && after.reservations == db.reservations[id := row]
    && after.usage == db.usage + if row.status.Settled? then [UsageOf(row)] else []
  }

  lemma PaymentIsAudited(db: DB, after: DB, row: Row, kind: Kind, delta: int)
    requires AuditTrail(db) && Payment(db, after, row, kind, delta)
    ensures AuditTrail(after)
  {
    var n := |db.journal|;
    forall i | 0 <= i < |after.journal|
      ensures var e := after.journal[i];
        && e.userId in after.users && e.balanceVersion <= after.users[e.userId].version
        && (e.balanceVersion == after.users[e.userId].version ==> e.balanceAfter == after.users[e.userId].balance)
    {
      if i < n { assert after.journal[i] == db.journal[i]; }
    }
    forall i, j | 0 <= i < j < |after.journal| && after.journal[i].userId == after.journal[j].userId
      ensures after.journal[i].balanceVersion < after.journal[j].balanceVersion
    {
      assert after.journal[i] == db.journal[i];
      if j < n { assert after.journal[j] == db.journal[j]; }
    }
  }

  lemma PaymentIsExplained(db: DB, after: DB, row: Row, kind: Kind, delta: int, user: string, credit: int)
    requires Agreement(db) && Payment(db, after, row, kind, delta)
    requires var id := row.reservation.id;
      && ExpectedEntries(row) == EntriesOf(db.journal, id) + [(kind, row.reservation.userId, delta)]
      && 0 < row.reservation.amount && 0 <= row.fact.cost <= row.reservation.amount
      && UsageRowsOf(db.usage, id) == []
    ensures Agreement(after)
    ensures BalanceExplained(db, user, credit) ==> BalanceExplained(after, user, credit)
  {
    PaymentIsAudited(db, after, row, kind, delta);
    var e := after.journal[|db.journal|];
    AppendEntry(db.journal, e, row.reservation.id, user);
    forall id ensures RowExplained(after, id) {
      assert RowExplained(db, id);
      AppendEntry(db.journal, e, id, user);
      if row.status.Settled? { AppendUsage(db.usage, UsageOf(row), id); } else { assert after.usage == db.usage; }
    }
  }

  lemma ReservePays(db: DB, r: Reservation, now: int)
    requires r.id !in db.reservations && ReserveTx(db, r, now).1 == Done
    ensures Payment(db, ReserveTx(db, r, now).0, Row(r, Reserved, "", NO_FACT, now), ReserveEntry, -r.amount)
  {
    assert db.usage + [] == db.usage;
  }

  lemma ReserveAgrees(db: DB, r: Reservation, now: int, user: string, credit: int)
    requires Agreement(db) && ReserveTx(db, r, now).1 == Done
    ensures Agreement(ReserveTx(db, r, now).0)
    ensures BalanceExplained(db, user, credit) ==> BalanceExplained(ReserveTx(db, r, now).0, user, credit)
  {
    if r.id !in db.reservations {
      var row := Row(r, Reserved, "", NO_FACT, now);
      ReservePays(db, r, now);
      assert RowExplained(db, r.id);
      assert ExpectedEntries(row) == [] + [(ReserveEntry, r.userId, 0 - (r.amount as int))];
      PaymentIsExplained(db, ReserveTx(db, r, now).0, row, ReserveEntry, -r.amount, user, credit);
    }
  }

  lemma FinalizeAgrees(db: DB, id: string, now: int, user: string, credit: int)
    requires Agreement(db) && FinalizeTx(db, id, now).1 == Done
    ensures Agreement(FinalizeTx(db, id, now).0)
    ensures BalanceExplained(db, user, credit) ==> BalanceExplained(FinalizeTx(db, id, now).0, user, credit)
  {
    assert RowExplained(db, id);
    var row := db.reservations[id];
    if row.status == ConsumedUnsettled {
      var after := FinalizeTx(db, id, now).0;
      assert UsageOf(after.reservations[id]) == UsageOf(row);
      PaymentIsExplained(db, after, after.reservations[id], SettleEntry, row.reservation.amount - row.fact.cost, user, credit);
    }
  }

  lemma RefundAgrees(db: DB, id: string, now: int, user: string, credit: int)
    requires Agreement(db) && RefundTx(db, id, now).1 == Done
    ensures Agreement(RefundTx(db, id, now).0)
    ensures BalanceExplained(db, user, credit) ==> BalanceExplained(RefundTx(db, id, now).0, user, credit)
  {
    assert RowExplained(db, id);
    var row := db.reservations[id];
    if row.status == Reserved {
      var after := RefundTx(db, id, now).0;
      assert after.usage == db.usage + [];
      PaymentIsExplained(db, after, after.reservations[id], RefundEntry, row.reservation.amount, user, credit);
    }
  }

  /** Attempt bookkeeping touches no money: same entries expected before and after. */
  lemma AttemptAgrees(db: DB, id: string, row: Row)
    requires Agreement(db) && id in db.reservations && row.reservation == db.reservations[id].reservation
    requires !row.status.Settled? && !row.status.Refunded?
    requires !db.reservations[id].status.Settled? && !db.reservations[id].status.Refunded?
    requires 0 <= row.fact.cost <= row.reservation.amount
    ensures Agreement(db.(reservations := db.reservations[id := row]))
  {
    var after := db.(reservations := db.reservations[id := row]);
    forall other ensures RowExplained(after, other) {
      assert RowExplained(db, other);
    }
  }

  /** What an admin transaction puts into a user's account. */
  function Credit(db: DB, tx: Tx, user: string): int {
    if Commit(db, tx).1 != Done then 0
    else match tx
         case TxAdminAdd(u, delta) => if u == user then delta else 0
         case TxCreateUser(u, balance, _) => if u == user then balance else 0
         case _ => 0
  }

  function Credits(db: DB, txs: seq<Tx>, user: string): int {
    if txs == [] then 0
    else Credits(db, txs[..|txs| - 1], user) + Credit(History(db, txs[..|txs| - 1]), txs[|txs| - 1], user)
  }

  lemma AdminAgrees(db: DB, tx: Tx, user: string, credit: int)
    requires Agreement(db) && Commit(db, tx).1 == Done
    requires tx.TxAdminAdd? || tx.TxCreateUser? || tx.TxSetEnabled?
    ensures Agreement(Commit(db, tx).0)
    ensures BalanceExplained(db, user, credit) ==> BalanceExplained(Commit(db, tx).0, user, credit + Credit(db, tx, user))
  {
    var after := Commit(db, tx).0;
    forall id ensures RowExplained(after, id) {
      assert RowExplained(db, id);
    }
    forall i | 0 <= i < |after.journal|
      ensures var e := after.journal[i];
        && e.userId in after.users && e.balanceVersion <= after.users[e.userId].version
        && (e.balanceVersion == after.users[e.userId].version ==> e.balanceAfter == after.users[e.userId].balance)
    {
      assert db.journal[i].userId in db.users;
    }
  }

  lemma CommitAgrees(db: DB, tx: Tx, user: string, credit: int)
    requires Agreement(db)
    ensures Agreement(Commit(db, tx).0)
    ensures BalanceExplained(db, user, credit) ==> BalanceExplained(Commit(db, tx).0, user, credit + Credit(db, tx, user))
  {
    RolledBackUnlessDone(db, tx);
    if Commit(db, tx).1 == Done {
      match tx
      case TxReserve(r, now) => ReserveAgrees(db, r, now, user, credit);
      case TxFinalize(id, now) => FinalizeAgrees(db, id, now, user, credit);
      case TxRefund(id, now) => RefundAgrees(db, id, now, user, credit);
      case TxMark(id, _, _) => assert RowExplained(db, id); AttemptStep(db, tx, id);
      case TxRelease(id, _) => assert RowExplained(db, id); AttemptStep(db, tx, id);
      case TxRecord(c) => assert RowExplained(db, c.reservationId); AttemptStep(db, tx, c.reservationId);
      case _ => AdminAgrees(db, tx, user, credit);
    }
  }

  lemma AttemptStep(db: DB, tx: Tx, id: string)
    requires Agreement(db) && Commit(db, tx).1 == Done && RowExplained(db, id)
    requires (tx.TxMark? && tx.id == id) || (tx.TxRelease? && tx.id == id) || (tx.TxRecord? && tx.c.reservationId == id)
    ensures Agreement(Commit(db, tx).0) && Commit(db, tx).0.users == db.users && Commit(db, tx).0.journal == db.journal
  {
    if Commit(db, tx).0 != db {
      AttemptAgrees(db, id, Commit(db, tx).0.reservations[id]);
    }
  }

  // ---- which transactions commit ----

  /** A due settlement commits exactly when the balance can take the difference: under the status guard the unique
      constraints on journal and usage rows never fire. */
  lemma FinalizeCommitsIff(db: DB, id: string, now: int)
    requires Agreement(db) && id in db.reservations && db.reservations[id].status == ConsumedUnsettled
    ensures var row := db.reservations[id];
      row.reservation.userId in db.users
      && (FinalizeTx(db, id, now).1 == Done
          <==> db.users[row.reservation.userId].balance + row.reservation.amount - row.fact.cost <= MAX_INT64)
  {
    assert RowExplained(db, id);
    var row := db.reservations[id];
    EntryFree(db, id, SettleEntry);
    UsageFree(db, id);
    var paid := AdjustBalance(db, row.reservation.userId, row.reservation.amount - row.fact.cost);
    if paid.Some? {
      assert paid.value.journal == db.journal && paid.value.usage == db.usage;
    }
  }

  /** The same for a due refund. */
  lemma RefundCommitsIff(db: DB, id: string, now: int)
    requires Agreement(db) && id in db.reservations && db.reservations[id].status == Reserved
    ensures var row := db.reservations[id];
      row.reservation.userId in db.users
      && (RefundTx(db, id, now).1 == Done
          <==> db.users[row.reservation.userId].balance + row.reservation.amount <= MAX_INT64)
  {
    assert RowExplained(db, id);
    var row := db.reservations[id];
    EntryFree(db, id, RefundEntry);
    var paid := AdjustBalance(db, row.reservation.userId, row.reservation.amount);
    if paid.Some? {
      assert paid.value.journal == db.journal;
    }
  }

  predicate ValidReservation(r: Reservation) {
    0 <= r.maxInput <= MAX_INT32 && 0 < r.maxOutput <= MAX_INT32 && r.id != "" && r.userId != "" && r.amount > 0
  }

  /** A new reservation commits exactly when its fields are valid and an enabled user has the amount. */
  lemma ReserveCommitsIff(db: DB, r: Reservation, now: int)
    requires Agreement(db) && r.id !in db.reservations
    ensures ReserveTx(db, r, now).1 == Done
      <==> ValidReservation(r) && r.userId in db.users && db.users[r.userId].enabled && db.users[r.userId].balance >= r.amount
  {
    assert RowExplained(db, r.id);
    EntryFree(db, r.id, ReserveEntry);
  }

  ghost predicate Fresh(db: DB) {
    db.reservations == map[] && db.journal == [] && db.usage == []
  }

  /** After any sequence of committed transactions each reservation's journal rows are exactly those its status calls
      for, a usage row exists iff it is settled, and every balance is opening plus admin credits plus its journal rows. */
  lemma {:induction false} JournalAgreement(db: DB, txs: seq<Tx>, user: string)
    requires Fresh(db)
    ensures Agreement(History(db, txs))
    ensures BalanceExplained(History(db, txs), user,
                             (if user in db.users then db.users[user].balance else 0) + Credits(db, txs, user))
  {
    if txs != [] {
      var front := txs[..|txs| - 1];
      JournalAgreement(db, front, user);
      CommitAgrees(History(db, front), txs[|txs| - 1], user,
                   (if user in db.users then db.users[user].balance else 0) + Credits(db, front, user));
    }
  }

  // ---- refinement of the book ----

  function BookRecord(row: Row): Record {
    var attempted := row.status.InFlight? || row.status.ConsumedUnsettled? || row.status.Settled?;
    var consumed := row.status.ConsumedUnsettled? || row.status.Settled?;
    var f := row.fact;
    Record(row.reservation.(createdAt := None), row.status, row.channel, if attempted then Some(0) else None,
           if consumed
           then Consumption(row.reservation.id, row.channel, f.input, f.output, f.creation, f.read, f.reportedTotal,
                            f.cost, f.complete, f.estimated, 0)
           else NOTHING_CONSUMED)
  }

  /** The book a database stands for, timestamps erased. */
  function Abs(db: DB): Book {
    Book(map user | user in db.users :: db.users[user].balance,
         map user | user in db.users :: db.users[user].enabled,
         map id | id in db.reservations :: BookRecord(db.reservations[id]))
  }

  function OpOf(tx: Tx): Op {
    match tx
    case TxReserve(r, _) => OpReserve(r.(createdAt := None))
    case TxMark(id, channel, _) => OpMark(id, channel, 0)
    case TxRelease(id, _) => OpRelease(id)
    case TxRecord(c) => OpRecord(c.(recordedAt := 0))
    case TxFinalize(id, _) => OpFinalize(id)
    case TxRefund(id, _) => OpRefund(id)
    case TxAdminAdd(user, delta) => OpAdminAdd(user, delta)
    case TxCreateUser(user, balance, enabled) => OpCreateUser(user, balance, enabled)
    case TxSetEnabled(user, enabled) => OpSetEnabled(user, enabled)
  }

  lemma SameBook(a: Book, b: Book)
    requires a.balances == b.balances && a.users == b.users && a.records == b.records
    ensures a == b
  {
  }

  lemma AbsBalance(db: DB, user: string, balance: int64)
    requires user in db.users
    ensures Abs(SetBalance(db, user, balance)) == Abs(db).(balances := Abs(db).balances[user := balance])
  {
    SameBook(Abs(SetBalance(db, user, balance)), Abs(db).(balances := Abs(db).balances[user := balance]));
  }

  lemma AbsRow(db: DB, id: string, row: Row, journal: seq<Entry>, usage: seq<UsageRow>)
    ensures Abs(DB(db.users, db.reservations[id := row], journal, usage)) == Put(Abs(db), id, BookRecord(row))
  {
    SameBook(Abs(DB(db.users, db.reservations[id := row], journal, usage)), Put(Abs(db), id, BookRecord(row)));
  }

  lemma ReserveRefines(db: DB, r: Reservation, now: int)
    requires Agreement(db) && ReserveTx(db, r, now).1 == Done
    ensures Reserve(Abs(db), r.(createdAt := None)) == (Abs(ReserveTx(db, r, now).0), Done)
  {
    assert RowExplained(db, r.id);
    if r.id !in db.reservations { NewReservationRefines(db, r, now); }
  }

  lemma NewReservationRefines(db: DB, r: Reservation, now: int)
    requires r.id !in db.reservations && ReserveTx(db, r, now).1 == Done
    ensures Reserve(Abs(db), r.(createdAt := None)) == (Abs(ReserveTx(db, r, now).0), Done)
  {
    var row := Row(r, Reserved, "", NO_FACT, now);
    var paid := SetBalance(db, r.userId, db.users[r.userId].balance - r.amount);
    NewReservation(db, r, now, paid);
    ReserveOnBook(db, r, paid, row);
    var after := ReserveTx(db, r, now).0;
    AbsRow(paid, r.id, row, after.journal, after.usage);
  }

  lemma ReserveOnBook(db: DB, r: Reservation, paid: DB, row: Row)
    requires r.id !in db.reservations && r.userId in db.users
    requires db.users[r.userId].enabled && db.users[r.userId].balance >= r.amount > 0
    requires paid == SetBalance(db, r.userId, db.users[r.userId].balance - r.amount)
    requires row == Row(r, Reserved, "", NO_FACT, row.updatedAt)
    ensures Reserve(Abs(db), r.(createdAt := None)) == (Put(Abs(paid), r.id, BookRecord(row)), Done)
  {
    AbsBalance(db, r.userId, db.users[r.userId].balance - r.amount);
  }

  lemma NewReservation(db: DB, r: Reservation, now: int, paid: DB)
    requires r.id !in db.reservations && ReserveTx(db, r, now).1 == Done
    requires paid == SetBalance(db, r.userId, db.users[r.userId].balance - r.amount)
    ensures var after := ReserveTx(db, r, now).0;
      after == DB(paid.users, paid.reservations[r.id := Row(r, Reserved, "", NO_FACT, now)], after.journal, after.usage)
    ensures db.users[r.userId].enabled && db.users[r.userId].balance >= r.amount > 0
  {
  }

  lemma MarkRefines(db: DB, id: string, channel: string, now: int)
    requires Agreement(db) && MarkTx(db, id, channel, now).1 == Done
    ensures MarkInFlight(Abs(db), id, channel, 0) == (Abs(MarkTx(db, id, channel, now).0), Done)
  {
    assert RowExplained(db, id);
    SameBook(MarkInFlight(Abs(db), id, channel, 0).0, Abs(MarkTx(db, id, channel, now).0));
  }

  lemma ReleaseRefines(db: DB, id: string, now: int)
    requires Agreement(db) && ReleaseTx(db, id, now).1 == Done
    ensures ReleaseAttempt(Abs(db), id) == (Abs(ReleaseTx(db, id, now).0), Done)
  {
    assert RowExplained(db, id);
    SameBook(ReleaseAttempt(Abs(db), id).0, Abs(ReleaseTx(db, id, now).0));
  }

  /** A payout that commits is a credit and a status, and audit rows. */
  lemma PayoutShape(db: DB, id: string, now: int, status: Status, after: DB, delta: int)
    requires id in db.reservations && var row := db.reservations[id];
      || (status == Settled && row.status == ConsumedUnsettled && delta == row.reservation.amount - row.fact.cost
          && FinalizeTx(db, id, now) == (after, Done))
      || (status == Refunded && row.status == Reserved && delta == row.reservation.amount && RefundTx(db, id, now) == (after, Done))
    ensures var row := db.reservations[id];
      var user := row.reservation.userId;
      && user in db.users && MIN_INT64 <= db.users[user].balance + delta <= MAX_INT64
      && var paid := SetBalance(db, user, db.users[user].balance + delta);
      after == DB(paid.users, paid.reservations[id := row.(status := status, updatedAt := now)], after.journal, after.usage)
  {
  }

  lemma AbsPayout(db: DB, id: string, now: int, status: Status, after: DB, delta: int)
    requires id in db.reservations && var row := db.reservations[id];
      var user := row.reservation.userId;
      && user in db.users && MIN_INT64 <= db.users[user].balance + delta <= MAX_INT64
      && var paid := SetBalance(db, user, db.users[user].balance + delta);
      after == DB(paid.users, paid.reservations[id := row.(status := status, updatedAt := now)], after.journal, after.usage)
    ensures var row := db.reservations[id];
      var user := row.reservation.userId;
      Abs(after) == Put(Abs(db).(balances := Abs(db).balances[user := db.users[user].balance + delta]), id,
                        BookRecord(row.(status := status, updatedAt := now)))
  {
    var row := db.reservations[id];
    var user := row.reservation.userId;
    AbsBalance(db, user, db.users[user].balance + delta);
    AbsRow(SetBalance(db, user, db.users[user].balance + delta), id, row.(status := status, updatedAt := now), after.journal, after.usage);
  }

  lemma FinalizeRefines(db: DB, id: string, now: int)
    requires Agreement(db) && FinalizeTx(db, id, now).1 == Done
    ensures Finalize(Abs(db), id) == (Abs(FinalizeTx(db, id, now).0), Done)
  {
    assert RowExplained(db, id);
    var row, after := db.reservations[id], FinalizeTx(db, id, now).0;
    if row.status == ConsumedUnsettled {
      PayoutShape(db, id, now, Settled, after, row.reservation.amount - row.fact.cost);
      AbsPayout(db, id, now, Settled, after, row.reservation.amount - row.fact.cost);
    }
  }

  lemma RefundRefines(db: DB, id: string, now: int)
    requires Agreement(db) && RefundTx(db, id, now).1 == Done
    ensures Refund(Abs(db), id) == (Abs(RefundTx(db, id, now).0), Done)
  {
    assert RowExplained(db, id);
    var row, after := db.reservations[id], RefundTx(db, id, now).0;
    if row.status == Reserved {
      PayoutShape(db, id, now, Refunded, after, row.reservation.amount);
      AbsPayout(db, id, now, Refunded, after, row.reservation.amount);
    }
  }

  lemma CreateUserRefines(db: DB, user: string, balance: int64, enabled: bool)
    requires CreateUserTx(db, user, balance, enabled).1 == Done
    ensures CreateUser(Abs(db), user, balance, enabled) == (Abs(CreateUserTx(db, user, balance, enabled).0), Done)
  {
    var book, after := Abs(db), Abs(CreateUserTx(db, user, balance, enabled).0);
    assert after.balances == book.balances[user := balance];
    assert after.users == book.users[user := enabled];
    SameBook(CreateUser(book, user, balance, enabled).0, after);
  }

  lemma SetEnabledRefines(db: DB, user: string, enabled: bool)
    requires SetEnabledTx(db, user, enabled).1 == Done
    ensures SetEnabled(Abs(db), user, enabled) == (Abs(SetEnabledTx(db, user, enabled).0), Done)
  {
    SameBook(SetEnabled(Abs(db), user, enabled).0, Abs(SetEnabledTx(db, user, enabled).0));
  }

  lemma AdminRefines(db: DB, tx: Tx)
    requires (tx.TxAdminAdd? || tx.TxCreateUser? || tx.TxSetEnabled?) && Commit(db, tx).1 == Done
    ensures Apply(Abs(db), OpOf(tx)) == (Abs(Commit(db, tx).0), Done)
  {
    match tx
    case TxAdminAdd(user, delta) => AbsBalance(db, user, db.users[user].balance + delta);
    case TxCreateUser(user, balance, enabled) => CreateUserRefines(db, user, balance, enabled);
    case TxSetEnabled(user, enabled) => SetEnabledRefines(db, user, enabled);
  }

  /** Every transaction that commits does to the book exactly what the in-memory ledger does. */
  lemma CommitRefines(db: DB, tx: Tx)
    requires Agreement(db) && Commit(db, tx).1 == Done
    ensures Apply(Abs(db), OpOf(tx)) == (Abs(Commit(db, tx).0), Done)
  {
    match tx
    case TxReserve(r, now) => ReserveRefines(db, r, now);
    case TxMark(id, channel, now) => MarkRefines(db, id, channel, now);
    case TxRelease(id, now) => ReleaseRefines(db, id, now);
    case TxRecord(c) => RecordRefines(db, c);
    case TxFinalize(id, now) => FinalizeRefines(db, id, now);
    case TxRefund(id, now) => RefundRefines(db, id, now);
    case _ => AdminRefines(db, tx);
  }

  lemma RecordRefines(db: DB, c: Consumption)
    requires Agreement(db) && RecordTx(db, c).1 == Done
    ensures RecordConsumption(Abs(db), c.(recordedAt := 0)) == (Abs(RecordTx(db, c).0), Done)
  {
    assert RowExplained(db, c.reservationId);
    var after := RecordTx(db, c).0;
    if db.reservations[c.reservationId].status == InFlight {
      assert BookRecord(after.reservations[c.reservationId]).consumption == c.(recordedAt := 0);
      SameBook(RecordConsumption(Abs(db), c.(recordedAt := 0)).0, Abs(after));
    }
  }

  /** What the database demands of a call and the in-memory ledger does not: set identifiers, 32-bit counts, a positive
      amount, and a consumption on the very channel of the attempt that costs no more than the amount. */
  predicate Storable(db: DB, tx: Tx) {
    match tx
    case TxReserve(r, _) => ValidReservation(r)
    case TxRecord(c) =>
      && c.reservationId != "" && 0 <= c.cost
      && FitsInt32(c.input) && FitsInt32(c.output) && FitsInt32(c.creation) && FitsInt32(c.read) && FitsInt32(c.reportedTotal)
      && (c.reservationId in db.reservations && db.reservations[c.reservationId].status == InFlight ==>
            db.reservations[c.reservationId].channel == c.channel && c.cost <= db.reservations[c.reservationId].reservation.amount)
    case _ => true
  }

  lemma AttemptCommits(db: DB, tx: Tx)
    requires Agreement(db) && (tx.TxMark? || tx.TxRelease?) && Apply(Abs(db), OpOf(tx)).1 == Done
    ensures Commit(db, tx).1 == Done
  {
    assert RowExplained(db, tx.id);
  }

  lemma RecordCommits(db: DB, c: Consumption)
    requires Agreement(db) && Storable(db, TxRecord(c)) && RecordConsumption(Abs(db), c.(recordedAt := 0)).1 == Done
    ensures RecordTx(db, c).1 == Done
  {
    assert RowExplained(db, c.reservationId);
  }

  lemma ReserveCommits(db: DB, r: Reservation, now: int)
    requires Agreement(db) && ValidReservation(r) && Reserve(Abs(db), r.(createdAt := None)).1 == Done
    ensures ReserveTx(db, r, now).1 == Done
  {
    if r.id !in db.reservations { ReserveCommitsIff(db, r, now); }
  }

  lemma PayoutCommits(db: DB, id: string, now: int)
    requires Agreement(db)
    ensures Finalize(Abs(db), id).1 == Done ==> FinalizeTx(db, id, now).1 == Done
    ensures Refund(Abs(db), id).1 == Done ==> RefundTx(db, id, now).1 == Done
  {
    if id in db.reservations {
      if db.reservations[id].status == ConsumedUnsettled { FinalizeCommitsIff(db, id, now); }
      if db.reservations[id].status == Reserved { RefundCommitsIff(db, id, now); }
    }
  }

  lemma AdminCommits(db: DB, tx: Tx)
    requires (tx.TxAdminAdd? || tx.TxCreateUser? || tx.TxSetEnabled?) && Apply(Abs(db), OpOf(tx)).1 == Done
    ensures Commit(db, tx).1 == Done
  {
  }

  /** The two ledgers accept the same calls: a transaction commits exactly when the in-memory ledger would do it and the
      database can store it. */
  lemma CommitsIff(db: DB, tx: Tx)
    requires Agreement(db)
    ensures Commit(db, tx).1 == Done <==> Apply(Abs(db), OpOf(tx)).1 == Done && Storable(db, tx)
  {
    if Commit(db, tx).1 == Done {
      CommitRefines(db, tx);
      DoneIsStorable(db, tx);
    } else if Apply(Abs(db), OpOf(tx)).1 == Done && Storable(db, tx) {
      match tx
      case TxReserve(r, now) => ReserveCommits(db, r, now);
      case TxRecord(c) => RecordCommits(db, c);
      case TxFinalize(id, now) => PayoutCommits(db, id, now);
      case TxRefund(id, now) => PayoutCommits(db, id, now);
      case TxMark(_, _, _) => AttemptCommits(db, tx);
      case TxRelease(_, _) => AttemptCommits(db, tx);
      case _ => AdminCommits(db, tx);
    }
  }

  lemma DoneIsStorable(db: DB, tx: Tx)
    requires Commit(db, tx).1 == Done
    ensures Storable(db, tx)
  {
  }

  /** How the database words what the in-memory ledger answers: a statement that fails has no cause, a disabled user cannot be
      told from one without the amount, and an unknown reservation is an error of the query that looks for it. */
  function Reworded(db: DB, tx: Tx, reply: Reply): Reply {
    match reply
    case Failed(BalanceOverflow) => Failed(Unavailable)
    case Failed(UserNotFound) =>
      if tx.TxReserve? && tx.r.userId in db.users then Refused
      else if tx.TxSetEnabled? then reply
      else Failed(Unavailable)
    case Failed(InvalidTransition) =>
      if (tx.TxMark? || tx.TxRelease?) && tx.id !in db.reservations then Failed(Unavailable) else reply
    case _ => reply
  }

  lemma ReserveReplies(db: DB, r: Reservation, now: int)
    requires Agreement(db) && ValidReservation(r)
    ensures ReserveTx(db, r, now).1 == Reworded(db, TxReserve(r, now), Reserve(Abs(db), r.(createdAt := None)).1)
  {
    if r.id !in db.reservations { ReserveCommitsIff(db, r, now); }
  }

  lemma AttemptReplies(db: DB, tx: Tx)
    requires Agreement(db) && (tx.TxMark? || tx.TxRelease?)
    ensures Commit(db, tx).1 == Reworded(db, tx, Apply(Abs(db), OpOf(tx)).1)
  {
    assert RowExplained(db, tx.id);
  }

  lemma RecordReplies(db: DB, c: Consumption)
    requires Agreement(db) && Storable(db, TxRecord(c))
    ensures RecordTx(db, c).1 == Reworded(db, TxRecord(c), RecordConsumption(Abs(db), c.(recordedAt := 0)).1)
  {
    assert RowExplained(db, c.reservationId);
  }

  lemma PayoutReplies(db: DB, id: string, now: int)
    requires Agreement(db)
    ensures FinalizeTx(db, id, now).1 == Reworded(db, TxFinalize(id, now), Finalize(Abs(db), id).1)
    ensures RefundTx(db, id, now).1 == Reworded(db, TxRefund(id, now), Refund(Abs(db), id).1)
  {
    assert RowExplained(db, id);
    if id in db.reservations {
      if db.reservations[id].status == ConsumedUnsettled { FinalizeCommitsIff(db, id, now); }
      if db.reservations[id].status == Reserved { RefundCommitsIff(db, id, now); }
    }
  }

  lemma AdminReplies(db: DB, tx: Tx)
    requires tx.TxAdminAdd? || tx.TxCreateUser? || tx.TxSetEnabled?
    ensures Commit(db, tx).1 == Reworded(db, tx, Apply(Abs(db), OpOf(tx)).1)
  {
  }

  /** Whatever the database can store it answers as the in-memory ledger does, in its own words. */
  lemma RepliesAgree(db: DB, tx: Tx)
    requires Agreement(db) && Storable(db, tx)
    ensures Commit(db, tx).1 == Reworded(db, tx, Apply(Abs(db), OpOf(tx)).1)
  {
    match tx
    case TxReserve(r, now) => ReserveReplies(db, r, now);
    case TxRecord(c) => RecordReplies(db, c);
    case TxFinalize(id, now) => PayoutReplies(db, id, now);
    case TxRefund(id, now) => PayoutReplies(db, id, now);
    case TxMark(_, _, _) => AttemptReplies(db, tx);
    case TxRelease(_, _) => AttemptReplies(db, tx);
    case _ => AdminReplies(db, tx);
  }

  // ---- when a row was last written ----

  function ClockOf(tx: Tx): int {
    match tx
    case TxReserve(_, now) => now
    case TxMark(_, _, now) => now
    case TxRelease(_, now) => now
    case TxRecord(c) => c.recordedAt
    case TxFinalize(_, now) => now
    case TxRefund(_, now) => now
    case _ => 0
  }

  ghost predicate RowIs(db: DB, id: string, row: Row) { id in db.reservations && db.reservations[id] == row }

  lemma StepWrites(db: DB, tx: Tx, id: string)
    ensures id in db.reservations ==> id in Commit(db, tx).0.reservations
    ensures var after := Commit(db, tx).0;
      id in after.reservations && !RowIs(db, id, after.reservations[id]) ==>
        var row := after.reservations[id];
        && row.updatedAt == ClockOf(tx)
        && (id in db.reservations ==> row.reservation == db.reservations[id].reservation)
        && (id !in db.reservations ==> tx.TxReserve? && tx.r == row.reservation)
        && (row.status == InFlight ==> tx == TxMark(id, row.channel, row.updatedAt))
  {
  }

  /** Every row carries the clock of the transaction that last wrote it, whatever has committed since; for a row in flight that
      is the one that marked it on its channel. So what a recovery pass finds stale is old by that clock. */
  lemma {:induction false} WrittenBy(db: DB, txs: seq<Tx>, id: string) returns (k: nat)
    requires id !in db.reservations && id in History(db, txs).reservations
    ensures k < |txs| && !RowIs(History(db, txs[..k]), id, History(db, txs).reservations[id])
    ensures forall j | k < j <= |txs| :: RowIs(History(db, txs[..j]), id, History(db, txs).reservations[id])
    ensures var row := History(db, txs).reservations[id];
      && row.updatedAt == ClockOf(txs[k])
      && (row.status == InFlight ==> txs[k] == TxMark(id, row.channel, row.updatedAt))
  {
    var front, last := txs[..|txs| - 1], txs[|txs| - 1];
    var row := History(db, txs).reservations[id];
    StepWrites(History(db, front), last, id);
    assert txs[..|txs|] == txs;
    if RowIs(History(db, front), id, row) {
      k := WrittenBy(db, front, id);
      assert front[..k] == txs[..k] && front[k] == txs[k];
      forall j | k < j <= |txs| ensures RowIs(History(db, txs[..j]), id, row) {
        if j < |txs| { assert front[..j] == txs[..j]; }
      }
    } else {
      k := |txs| - 1;
    }
  }

  function OpsOf(db: DB, txs: seq<Tx>): seq<Op> {
    if txs == [] then []
    else
      var front, last := txs[..|txs| - 1], txs[|txs| - 1];
      OpsOf(db, front) + if Commit(History(db, front), last).1 == Done then [OpOf(last)] else []
  }

  /** So the database's history is a run of the ledger, and its lifecycle and conservation laws hold of it. */
  lemma {:induction false} HistoryRefines(db: DB, txs: seq<Tx>)
    requires Agreement(db)
    ensures Agreement(History(db, txs))
    ensures Abs(History(db, txs)) == Run(Abs(db), OpsOf(db, txs))
  {
    if txs != [] {
      var front, last := txs[..|txs| - 1], txs[|txs| - 1];
      HistoryRefines(db, front);
      CommitAgrees(History(db, front), last, "", 0);
      RolledBackUnlessDone(History(db, front), last);
      if Commit(History(db, front), last).1 == Done {
        CommitRefines(History(db, front), last);
        RunSnoc(Abs(db), OpsOf(db, front), OpOf(last));
      } else {
        assert OpsOf(db, txs) == OpsOf(db, front);
      }
    }
  }
}
