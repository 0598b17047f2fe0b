/** The reservation ledger as a state machine on values: what each ledger call does to the book, and the laws that
    hold over every sequence of calls. The in-memory ledger is proved to implement it, the PostgreSQL one to refine it. */
module Ledger {
  import opened Int64

  datatype Status = Reserved | InFlight | ConsumedUnsettled | Settled | Refunded

  /** createdAt is None for Go's zero time. */
  datatype Reservation = Reservation(id: string, traceId: string, userId: string, keyId: string, model: string,
                                     amount: int64, maxInput: int64, maxOutput: int64, createdAt: Option<int>)

  datatype Consumption = Consumption(reservationId: string, channel: string, input: int64, output: int64,
                                     creation: int64, read: int64, reportedTotal: int64, cost: int64,
                                     complete: bool, estimated: bool, recordedAt: int)

  const NOTHING_CONSUMED := Consumption("", "", 0, 0, 0, 0, 0, 0, false, false, 0)

  datatype Record = Record(reservation: Reservation, status: Status, attemptChannel: string,
                           attemptedAt: Option<int>, consumption: Consumption)

  datatype Book = Book(balances: map<string, int64>, users: map<string, bool>, records: map<string, Record>)

  datatype LedgerError = Conflict | InvalidTransition | Exceeded | UserNotFound | UserExists | BalanceOverflow
                       | Ambiguous | Unavailable

  /** Refused is the (false, nil) answer of Reserve: not enough balance. */
  datatype Reply = Done | Refused | Failed(error: LedgerError)

  predicate SameReservation(a: Reservation, b: Reservation) {
    a.(createdAt := None) == b.(createdAt := None)
  }

  predicate SameConsumption(a: Consumption, b: Consumption) {
    a.(recordedAt := 0) == b.(recordedAt := 0)
  }

  function Balance(b: Book, user: string): int64 {
    if user in b.balances then b.balances[user] else 0
  }

  // ---- the ledger calls ----

  function Adjust(b: Book, user: string, delta: int64): (Book, Reply) {
    if user !in b.users then (b, Failed(UserNotFound))
    else match CheckedBalanceAdd(Balance(b, user), delta)
         case None => (b, Failed(BalanceOverflow))
         case Some(balance) => (b.(balances := b.balances[user := balance]), Done)
  }

  function Debit(b: Book, user: string, amount: int64): (Book, Reply) {
    if amount < 0 then (b, Failed(BalanceOverflow))
    else if user !in b.users || !b.users[user] then (b, Failed(UserNotFound))
    else if Balance(b, user) < amount then (b, Refused)
    else (b.(balances := b.balances[user := Balance(b, user) - amount]), Done)
  }

  function Put(b: Book, id: string, rec: Record): Book {
    b.(records := b.records[id := rec])
  }

  function Reserve(b: Book, r: Reservation): (Book, Reply) {
    if r.id in b.records then
      var rec := b.records[r.id];
      if !SameReservation(rec.reservation, r) then (b, Failed(Conflict))
      else if rec.status != Reserved then (b, Failed(InvalidTransition))
      else (b, Done)
    else
      var (paid, reply) := Debit(b, r.userId, r.amount);
      if reply != Done then (b, reply)
      else (Put(paid, r.id, Record(r, Reserved, "", None, NOTHING_CONSUMED)), Done)
  }

  function MarkInFlight(b: Book, id: string, channel: string, now: int): (Book, Reply) {
    if id !in b.records then (b, Failed(InvalidTransition))
    else
      var rec := b.records[id];
      match rec.status
      case InFlight => (b, if rec.attemptChannel != channel then Failed(Conflict) else Done)
      case Reserved => (Put(b, id, rec.(status := InFlight, attemptChannel := channel, attemptedAt := Some(now))), Done)
      case _ => (b, Failed(InvalidTransition))
  }

  function ReleaseAttempt(b: Book, id: string): (Book, Reply) {
    if id !in b.records then (b, Failed(InvalidTransition))
    else
      var rec := b.records[id];
      match rec.status
      case Reserved => (b, Done)
      case InFlight => (Put(b, id, rec.(status := Reserved, attemptedAt := None)), Done)
      case _ => (b, Failed(InvalidTransition))
  }

  function RecordConsumption(b: Book, c: Consumption): (Book, Reply) {
    if c.reservationId !in b.records then (b, Failed(InvalidTransition))
    else
      var rec := b.records[c.reservationId];
      match rec.status
      case InFlight =>
        if rec.attemptChannel != "" && rec.attemptChannel != c.channel then (b, Failed(Conflict))
        else (Put(b, c.reservationId, rec.(status := ConsumedUnsettled, consumption := c)), Done)
      case ConsumedUnsettled => (b, if SameConsumption(rec.consumption, c) then Done else Failed(Conflict))
      case Settled => (b, if SameConsumption(rec.consumption, c) then Done else Failed(Conflict))
      case _ => (b, Failed(InvalidTransition))
  }

  function Finalize(b: Book, id: string): (Book, Reply) {
    if id !in b.records then (b, Failed(InvalidTransition))
    else
      var rec := b.records[id];
      if rec.status == Settled then (b, Done)
      else if rec.status != ConsumedUnsettled then (b, Failed(InvalidTransition))
      else if rec.consumption.cost > rec.reservation.amount then (b, Failed(Exceeded))
      else if rec.consumption.cost < 0 then (b, Failed(Conflict))
      else
        var (paid, reply) := Adjust(b, rec.reservation.userId, rec.reservation.amount - rec.consumption.cost);
        if reply != Done then (b, reply) else (Put(paid, id, rec.(status := Settled)), Done)
  }

  function Refund(b: Book, id: string): (Book, Reply) {
    if id !in b.records then (b, Failed(InvalidTransition))
    else
      var rec := b.records[id];
      if rec.status == Refunded then (b, Done)
      else if rec.status != Reserved then (b, Failed(InvalidTransition))
      else
        var (paid, reply) := Adjust(b, rec.reservation.userId, rec.reservation.amount);
        if reply != Done then (b, reply) else (Put(paid, id, rec.(status := Refunded)), Done)
  }

  function CreateUser(b: Book, user: string, balance: int64, enabled: bool): (Book, Reply) {
    if user in b.users then (b, Failed(UserExists))
    else (b.(users := b.users[user := enabled], balances := b.balances[user := balance]), Done)
  }

  function SetEnabled(b: Book, user: string, enabled: bool): (Book, Reply) {
    if user !in b.users then (b, Failed(UserNotFound)) else (b.(users := b.users[user := enabled]), Done)
  }

  datatype Op =
    | OpReserve(r: Reservation)
    | OpMark(id: string, channel: string, now: int)
    | OpRelease(id: string)
    | OpRecord(c: Consumption)
    | OpFinalize(id: string)
    | OpRefund(id: string)
    | OpAdminAdd(user: string, delta: int64)
    | OpCreateUser(user: string, balance: int64, enabled: bool)
    | OpSetEnabled(user: string, enabled: bool)

  function Apply(b: Book, op: Op): (Book, Reply) {
    match op
    case OpReserve(r) => Reserve(b, r)
    case OpMark(id, channel, now) => MarkInFlight(b, id, channel, now)
    case OpRelease(id) => ReleaseAttempt(b, id)
    case OpRecord(c) => RecordConsumption(b, c)
    case OpFinalize(id) => Finalize(b, id)
    case OpRefund(id) => Refund(b, id)
    case OpAdminAdd(user, delta) => Adjust(b, user, delta)
    case OpCreateUser(user, balance, enabled) => CreateUser(b, user, balance, enabled)
    case OpSetEnabled(user, enabled) => SetEnabled(b, user, enabled)
  }

  /** The book after a sequence of calls; a call whose reply was lost, or that failed, is one that did or did not happen. */
  function Run(b: Book, ops: seq<Op>): Book {
    if ops == [] then b else Apply(Run(b, ops[..|ops| - 1]), ops[|ops| - 1]).0
  }

  lemma RunSnoc(b: Book, ops: seq<Op>, op: Op)
    ensures Run(b, ops + [op]) == Apply(Run(b, ops), op).0
  {
    assert (ops + [op])[..|ops|] == ops;
  }

  lemma {:induction false} RunConcat(b: Book, first: seq<Op>, second: seq<Op>)
    ensures Run(b, first + second) == Run(Run(b, first), second)
  {
    if second == [] {
      assert first + second == first;
    } else {
      RunConcat(b, first, second[..|second| - 1]);
      assert (first + second)[..|first + second| - 1] == first + second[..|second| - 1];
    }
  }

  // ---- invariants of every book ----

  ghost predicate WellFormed(b: Book) {
    && b.balances.Keys <= b.users.Keys
    && (forall id | id in b.records :: RecordOk(b, id, b.records[id]))
  }

  ghost predicate RecordOk(b: Book, id: string, rec: Record) {
    && rec.reservation.id == id && 0 <= rec.reservation.amount && rec.reservation.userId in b.users
    && (rec.status == Settled ==> 0 <= rec.consumption.cost <= rec.reservation.amount)
    && (rec.status.ConsumedUnsettled? || rec.status.Settled? ==> rec.consumption.reservationId == id)
  }

  lemma ApplyKeepsWellFormed(b: Book, op: Op)
    requires WellFormed(b)
    ensures WellFormed(Apply(b, op).0)
  {
    var b' := Apply(b, op).0;
    forall id | id in b'.records ensures RecordOk(b', id, b'.records[id]) {
      if id in b.records { assert RecordOk(b, id, b.records[id]); }
    }
  }

  /** A call that does not answer Done has changed nothing. */
  lemma FailureChangesNothing(b: Book, op: Op)
    ensures Apply(b, op).1 != Done ==> Apply(b, op).0 == b
  {
  }

  /** Repeating a completed ledger call at once answers Done again and changes nothing. */
  lemma ReplayIsNoOp(b: Book, op: Op)
    requires !op.OpAdminAdd? && !op.OpCreateUser?
    requires Apply(b, op).1 == Done
    ensures Apply(Apply(b, op).0, op) == (Apply(b, op).0, Done)
  {
    var b' := Apply(b, op).0;
    if op.OpSetEnabled? {
      assert b'.users[op.user := op.enabled] == b'.users;
    }
  }

  // ---- lifecycle ----

  ghost predicate Allowed(before: Status, after: Status) {
    || before == after
    || (before == Reserved && (after == InFlight || after == Refunded))
    || (before == InFlight && (after == Reserved || after == ConsumedUnsettled))
    || (before == ConsumedUnsettled && after == Settled)
  }

  /** What a record still is after any further calls: same reservation, terminal states and the recorded fact final. */
  ghost predicate Succeeds(before: Record, after: Record) {
    && after.reservation == before.reservation
    && (before.status.Settled? || before.status.Refunded? ==> after == before)
    && (before.status.ConsumedUnsettled?
        ==> (after.status.ConsumedUnsettled? || after.status.Settled?) && after.consumption == before.consumption)
  }

  lemma StepLifecycle(b: Book, op: Op, id: string)
    requires id in b.records
    ensures id in Apply(b, op).0.records
    ensures Allowed(b.records[id].status, Apply(b, op).0.records[id].status)
    ensures Succeeds(b.records[id], Apply(b, op).0.records[id])
  {
  }

  /** The reservation a ledger call is about, and the status it asks for. */
  predicate MovesStatus(op: Op) { op.OpMark? || op.OpRelease? || op.OpRecord? || op.OpFinalize? || op.OpRefund? }

  function IdOf(op: Op): string
    requires MovesStatus(op)
  {
    if op.OpRecord? then op.c.reservationId else op.id
  }

  function Target(op: Op): Status
    requires MovesStatus(op)
  {
    match op
    case OpMark(_, _, _) => InFlight
    case OpRelease(_) => Reserved
    case OpRecord(_) => ConsumedUnsettled
    case OpFinalize(_) => Settled
    case OpRefund(_) => Refunded
  }

  /** A call is an invalid transition exactly when the reservation is unknown or its status neither is, nor may become, nor
      comes after the one asked for; a call that is Done leaves it in that status, or settled after a recorded fact. */
  lemma InvalidTransitionIff(b: Book, op: Op)
    requires MovesStatus(op)
    ensures var (after, reply), id, to := Apply(b, op), IdOf(op), Target(op);
      && (reply == Failed(InvalidTransition) <==>
            id !in b.records || !(Allowed(b.records[id].status, to) || (to == ConsumedUnsettled && b.records[id].status == Settled)))
      && (reply == Done ==> id in b.records && id in after.records)
      && (reply == Done ==>
            after.records[id].status == if to == ConsumedUnsettled && b.records[id].status == Settled then Settled else to)
  {
  }

  /** What a call says about a reservation is not what the book says. */
  predicate Contradicts(b: Book, op: Op) {
    match op
    case OpReserve(r) => r.id in b.records && r.(createdAt := None) != b.records[r.id].reservation.(createdAt := None)
    case OpMark(id, channel, _) =>
      id in b.records && b.records[id].status.InFlight? && channel != b.records[id].attemptChannel
    case OpRecord(c) =>
      c.reservationId in b.records
      && var rec := b.records[c.reservationId];
      || (rec.status.InFlight? && rec.attemptChannel !in {"", c.channel})
      || ((rec.status.ConsumedUnsettled? || rec.status.Settled?) && c.(recordedAt := 0) != rec.consumption.(recordedAt := 0))
    case OpFinalize(id) => id in b.records && b.records[id].status.ConsumedUnsettled? && b.records[id].consumption.cost < 0
    case _ => false
  }

  /** What a call would add to the balance of a user, if it is one that moves money. */
  function Payment(b: Book, op: Op): Option<(string, int)> {
    match op
    case OpReserve(r) => if r.id in b.records then None else Some((r.userId, 0 - r.amount))
    case OpFinalize(id) =>
      if id in b.records && b.records[id].status.ConsumedUnsettled? && 0 <= b.records[id].consumption.cost <= b.records[id].reservation.amount
      then Some((b.records[id].reservation.userId, b.records[id].reservation.amount - b.records[id].consumption.cost))
      else None
    case OpRefund(id) =>
      if id in b.records && b.records[id].status.Reserved?
      then Some((b.records[id].reservation.userId, b.records[id].reservation.amount)) else None
    case OpAdminAdd(user, delta) => Some((user, delta))
    case _ => None
  }

  /** Every refusal of a call has its own cause, and each cause its own answer. */
  lemma RefusalsIff(b: Book, op: Op)
    requires WellFormed(b)
    ensures var reply := Apply(b, op).1;
      && (reply == Failed(Conflict) <==> Contradicts(b, op))
      && (reply == Failed(Exceeded) <==>
            op.OpFinalize? && op.id in b.records && b.records[op.id].status.ConsumedUnsettled?
            && b.records[op.id].consumption.cost > b.records[op.id].reservation.amount)
      && (reply == Failed(UserExists) <==> op.OpCreateUser? && op.user in b.users)
      && reply != Failed(Ambiguous) && reply != Failed(Unavailable)
  {
  }

  /** So has every payment that cannot be made. */
  lemma FailedPaymentsIff(b: Book, op: Op)
    requires WellFormed(b)
    ensures var reply, pay := Apply(b, op).1, Payment(b, op);
      && (reply == Failed(BalanceOverflow) <==>
            pay.Some? && if op.OpReserve? then op.r.amount < 0
                         else pay.value.0 in b.users && !(MIN_INT64 <= Balance(b, pay.value.0) + pay.value.1 <= MAX_INT64))
      && (reply == Failed(UserNotFound) <==>
            || (op.OpSetEnabled? && op.user !in b.users)
            || (pay.Some? && pay.value.0 !in b.users && !(op.OpReserve? && op.r.amount < 0))
            || (pay.Some? && pay.value.0 in b.users && op.OpReserve? && op.r.amount >= 0 && !b.users[pay.value.0]))
      && (reply == Refused <==>
            op.OpReserve? && pay.Some? && 0 <= op.r.amount && op.r.userId in b.users && b.users[op.r.userId]
            && Balance(b, op.r.userId) < op.r.amount)
  {
  }

  lemma {:induction false} RunLifecycle(b: Book, ops: seq<Op>, id: string)
    requires id in b.records
    ensures id in Run(b, ops).records && Succeeds(b.records[id], Run(b, ops).records[id])
  {
    if ops != [] {
      RunLifecycle(b, ops[..|ops| - 1], id);
      StepLifecycle(Run(b, ops[..|ops| - 1]), ops[|ops| - 1], id);
    }
  }

  // ---- conservation ----

  /** What one record still holds back, or has finally taken, from a user. */
  function Liability(rec: Record, user: string): int {
    if rec.reservation.userId != user then 0
    else match rec.status
         case Refunded => 0
         case Settled => rec.consumption.cost
         case _ => rec.reservation.amount
  }

  ghost function Held(records: map<string, Record>, user: string): int
    decreases |records|
  {
    if records == map[] then 0
    else
      var id :| id in records;
      Liability(records[id], user) + Held(records - {id}, user)
  }

  lemma {:induction false} HeldWithout(records: map<string, Record>, id: string, user: string)
    requires id in records
    ensures Held(records, user) == Liability(records[id], user) + Held(records - {id}, user)
    decreases |records|
  {
    var first :| first in records
      && Held(records, user) == Liability(records[first], user) + Held(records - {first}, user);
    if first != id {
      HeldWithout(records - {first}, id, user);
      HeldWithout(records - {id}, first, user);
      assert records - {first} - {id} == records - {id} - {first};
    }
  }

  lemma HeldAfterPut(records: map<string, Record>, id: string, rec: Record, user: string)
    ensures Held(records[id := rec], user)
         == Held(records, user) + Liability(rec, user) - (if id in records then Liability(records[id], user) else 0)
  {
    HeldWithout(records[id := rec], id, user);
    assert records[id := rec] - {id} == records - {id};
    if id in records { HeldWithout(records, id, user); } else { assert records - {id} == records; }
  }

  /** Everything a user owns: free balance, frozen amounts and settled costs. */
  ghost function Wealth(b: Book, user: string): int {
    Balance(b, user) + Held(b.records, user)
  }

  /** What an admin call that succeeds puts into, or takes out of, a user's account. */
  function AdminDelta(b: Book, op: Op, user: string): int {
    if Apply(b, op).1 != Done then 0
    else match op
         case OpAdminAdd(u, delta) => if u == user then delta else 0
         case OpCreateUser(u, balance, _) => if u == user then balance else 0
         case _ => 0
  }

  function AdminNet(b: Book, ops: seq<Op>, user: string): int {
    if ops == [] then 0
    else AdminNet(b, ops[..|ops| - 1], user) + AdminDelta(Run(b, ops[..|ops| - 1]), ops[|ops| - 1], user)
  }

  lemma ReserveConserves(b: Book, r: Reservation, user: string)
    ensures Wealth(Reserve(b, r).0, user) == Wealth(b, user)
  {
    if Reserve(b, r).0 != b { HeldAfterPut(b.records, r.id, Reserve(b, r).0.records[r.id], user); }
  }

  lemma AttemptConserves(b: Book, id: string, rec: Record, user: string)
    requires id in b.records && rec.reservation == b.records[id].reservation
    requires rec.status.Reserved? || rec.status.InFlight? || rec.status.ConsumedUnsettled?
    requires b.records[id].status.Reserved? || b.records[id].status.InFlight? || b.records[id].status.ConsumedUnsettled?
    ensures Wealth(Put(b, id, rec), user) == Wealth(b, user)
  {
    HeldAfterPut(b.records, id, rec, user);
  }

  lemma FinalizeConserves(b: Book, id: string, user: string)
    ensures Wealth(Finalize(b, id).0, user) == Wealth(b, user)
  {
    if Finalize(b, id).0 != b { HeldAfterPut(b.records, id, Finalize(b, id).0.records[id], user); }
  }

  lemma RefundConserves(b: Book, id: string, user: string)
    ensures Wealth(Refund(b, id).0, user) == Wealth(b, user)
  {
    if Refund(b, id).0 != b { HeldAfterPut(b.records, id, Refund(b, id).0.records[id], user); }
  }

  lemma StepConserves(b: Book, op: Op, user: string)
    requires WellFormed(b)
    ensures Wealth(Apply(b, op).0, user) == Wealth(b, user) + AdminDelta(b, op, user)
  {
    var b' := Apply(b, op).0;
    if b' != b {
      match op
      case OpReserve(r) => ReserveConserves(b, r, user);
      case OpRecord(c) => AttemptConserves(b, c.reservationId, b'.records[c.reservationId], user);
      case OpMark(id, _, _) => AttemptConserves(b, id, b'.records[id], user);
      case OpRelease(id) => AttemptConserves(b, id, b'.records[id], user);
      case OpFinalize(id) => FinalizeConserves(b, id, user);
      case OpRefund(id) => RefundConserves(b, id, user);
      case OpAdminAdd(_, _) =>
      case OpCreateUser(_, _, _) =>
      case OpSetEnabled(_, _) =>
    }
  }

  /** In every reachable book, balance plus frozen amounts plus settled costs equals the opening wealth plus what
      admins added, for every user. */
  lemma {:induction false} Conservation(b: Book, ops: seq<Op>, user: string)
    requires WellFormed(b)
    ensures WellFormed(Run(b, ops))
    ensures Wealth(Run(b, ops), user) == Wealth(b, user) + AdminNet(b, ops, user)
  {
    if ops != [] {
      var before := Run(b, ops[..|ops| - 1]);
      Conservation(b, ops[..|ops| - 1], user);
      ApplyKeepsWellFormed(before, ops[|ops| - 1]);
      StepConserves(before, ops[|ops| - 1], user);
    }
  }

  // ---- no oversell ----

  ghost predicate NoAdminDebit(ops: seq<Op>, user: string) {
    forall i | 0 <= i < |ops| ::
      && (ops[i].OpAdminAdd? && ops[i].user == user ==> 0 <= ops[i].delta)
      && (ops[i].OpCreateUser? && ops[i].user == user ==> 0 <= ops[i].balance)
  }

  lemma BalanceStaysNonNegative(b: Book, op: Op, user: string)
    requires WellFormed(b) && 0 <= Balance(b, user) && NoAdminDebit([op], user)
    ensures 0 <= Balance(Apply(b, op).0, user)
  {
    assert [op][0] == op;
    if (op.OpFinalize? || op.OpRefund?) && op.id in b.records {
      assert RecordOk(b, op.id, b.records[op.id]);
    }
  }

  lemma {:induction false} RunStaysNonNegative(b: Book, ops: seq<Op>, user: string)
    requires WellFormed(b) && 0 <= Balance(b, user) && NoAdminDebit(ops, user)
    ensures 0 <= Balance(Run(b, ops), user)
  {
    if ops != [] {
      var front := ops[..|ops| - 1];
      RunStaysNonNegative(b, front, user);
      Conservation(b, front, user);
      BalanceStaysNonNegative(Run(b, front), ops[|ops| - 1], user);
    }
  }

  /** However many reservations compete, a user whom no admin debits never goes below zero, so all frozen amounts and
      settled costs together fit in what was ever paid in. */
  lemma NoOversell(b: Book, ops: seq<Op>, user: string)
    requires WellFormed(b) && 0 <= Balance(b, user) && NoAdminDebit(ops, user)
    ensures 0 <= Balance(Run(b, ops), user)
    ensures Held(Run(b, ops).records, user) <= Wealth(b, user) + AdminNet(b, ops, user)
  {
    RunStaysNonNegative(b, ops, user);
    Conservation(b, ops, user);
  }

  lemma {:induction false} HeldBounds(records: map<string, Record>, id: string, user: string)
    requires id in records && forall k | k in records :: 0 <= Liability(records[k], user)
    ensures Liability(records[id], user) <= Held(records, user)
    decreases |records|
  {
    HeldWithout(records, id, user);
    NonNegativeHeld(records - {id}, user);
  }

  lemma {:induction false} NonNegativeHeld(records: map<string, Record>, user: string)
    requires forall k | k in records :: 0 <= Liability(records[k], user)
    ensures 0 <= Held(records, user)
    decreases |records|
  {
    if records != map[] {
      var first :| first in records && Held(records, user) == Liability(records[first], user) + Held(records - {first}, user);
      NonNegativeHeld(records - {first}, user);
    }
  }

  /** Money can always be given back: while a user's wealth fits int64, no settlement or refund of a sound record can
      overflow the balance. */
  lemma PayoutsCannotOverflow(b: Book, id: string)
    requires WellFormed(b) && id in b.records
    requires Wealth(b, b.records[id].reservation.userId) <= MAX_INT64
    ensures b.records[id].status == Reserved ==> Refund(b, id).1 == Done
    ensures b.records[id].status == ConsumedUnsettled && 0 <= b.records[id].consumption.cost <= b.records[id].reservation.amount
        ==> Finalize(b, id).1 == Done
  {
    var rec := b.records[id];
    forall k | k in b.records ensures 0 <= Liability(b.records[k], rec.reservation.userId) {
      assert RecordOk(b, k, b.records[k]);
    }
    assert RecordOk(b, id, rec);
    HeldBounds(b.records, id, rec.reservation.userId);
  }

  /** No record is charged beyond its amount and every user's wealth fits int64. */
  ghost predicate Sound(b: Book) {
    && WellFormed(b)
    && (forall user | user in b.users :: Wealth(b, user) <= MAX_INT64)
    && (forall id | id in b.records && b.records[id].status == ConsumedUnsettled ::
          0 <= b.records[id].consumption.cost <= b.records[id].reservation.amount)
  }

  /** In a sound book a payout that is due never fails, and the book stays sound. */
  lemma SoundPayout(b: Book, op: Op)
    requires Sound(b) && (op.OpFinalize? || op.OpRefund?) && op.id in b.records
    requires op.OpFinalize? ==> b.records[op.id].status == ConsumedUnsettled || b.records[op.id].status == Settled
    requires op.OpRefund? ==> b.records[op.id].status == Reserved || b.records[op.id].status == Refunded
    ensures Apply(b, op).1 == Done && Sound(Apply(b, op).0)
  {
    assert RecordOk(b, op.id, b.records[op.id]);
    PayoutsCannotOverflow(b, op.id);
    ApplyKeepsWellFormed(b, op);
    forall user | user in b.users ensures Wealth(Apply(b, op).0, user) <= MAX_INT64 {
      StepConserves(b, op, user);
    }
  }
}
