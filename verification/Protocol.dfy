/** One request against the ledger, as a state machine: every ledger call, every upstream send and every step of other
    processes is one atomic transition, so a run is an arbitrary interleaving and a crash is a run that stops early. */
module Protocol {
  import opened Int64
  import opened Ledger
  import Canonical
  import Pricing
  import Settlement

  // ---- upstream results ----

  datatype Outcome = NotDialed | NetworkError | Answered(status: int)

  predicate Success(o: Outcome) { o.Answered? && 200 <= o.status < 300 }

  /** The answers that prove the upstream generated nothing. */
  predicate DefinitelyUnconsumedStatus(status: int) {
    status in {400, 401, 402, 403, 404, 405, 413, 415, 422, 429}
  }

  predicate IsChannelError(status: int) {
    300 <= status < 400 || status >= 500 || status in {429, 408, 401, 403}
  }

  predicate ProvedUnconsumed(o: Outcome) {
    o.NotDialed? || (o.Answered? && !Success(o) && DefinitelyUnconsumedStatus(o.status))
  }

  /** A send, with the charge that it will be settled with if it is answered 2xx. */
  datatype Sent = Sent(channel: string, outcome: Outcome, charge: Consumption)

  // ---- ledger calls under faults ----

  /** A call takes effect and answers, takes effect and its answer is lost, or fails without effect. */
  datatype Fault = Delivered | ReplyLost | NotApplied

  function Call(b: Book, op: Op, fault: Fault): (Book, Reply) {
    match fault
    case Delivered => Apply(b, op)
    case ReplyLost => (Apply(b, op).0, Failed(Unavailable))
    case NotApplied => (b, Failed(Unavailable))
  }

  // ---- the request ----

  datatype Job = Job(res: Reservation, candidates: seq<string>)

  datatype PC =
    | Trying(i: nat)                            // before candidate i, or after the last one
    | Marking(i: nat)                           // local construction done
    | Unmarking(i: nat)                         // MarkInFlight failed, nothing was sent
    | Sending(i: nat)
    | Releasing(i: nat, outcome: Outcome)       // the send is proved unconsumed
    | Recording(c: Consumption, attempt: nat)   // a 2xx was received
    | Finalizing(c: Consumption)
    | Leaving(consumed: bool, settled: bool)    // the deferred refund decision
    | Over(consumed: bool, settled: bool)

  datatype World = World(book: Book, pc: PC, sends: seq<Sent>)

  /** What the environment decides at one step of the request; a step reads only the fields it needs. */
  datatype Env = Env(canceled: bool, admitted: bool, prepared: bool, fault: Fault, outcome: Outcome,
                     charge: Consumption, now: int)

  const RETRIES: nat := 3

  /** The ledger call the next step makes, if it makes one. */
  function Wanted(job: Job, pc: PC, now: int): Option<Op> {
    var id := job.res.id;
    match pc
    case Marking(i) => if i < |job.candidates| then Some(OpMark(id, job.candidates[i], now)) else None
    case Unmarking(_) => Some(OpRelease(id))
    case Releasing(_, _) => Some(OpRelease(id))
    case Recording(c, _) => Some(OpRecord(c))
    case Finalizing(_) => Some(OpFinalize(id))
    case Leaving(consumed, settled) => if consumed || settled then None else Some(OpRefund(id))
    case _ => None
  }

  /** Where the step leads, given the answer of its call. */
  function Resume(job: Job, pc: PC, e: Env, reply: Reply): PC {
    match pc
    case Trying(i) =>
      if i >= |job.candidates| || e.canceled then Leaving(false, false)
      else if !e.admitted || !e.prepared then Trying(i + 1)
      else Marking(i)
    case Marking(i) => if i >= |job.candidates| then pc else if reply == Done then Sending(i) else Unmarking(i)
    case Unmarking(i) => if reply == Done then Trying(i + 1) else Leaving(true, false)
    case Sending(i) => if i >= |job.candidates| then pc else AfterSend(job, i, e)
    case Releasing(i, outcome) =>
      if reply != Done then Leaving(true, false)
      else if (outcome.NotDialed? && e.canceled) || (outcome.Answered? && !IsChannelError(outcome.status)) then Leaving(false, false)
      else Trying(i + 1)
    case Recording(c, attempt) =>
      if reply == Done then Finalizing(c)
      else if reply != Failed(Unavailable) || attempt + 1 >= RETRIES || e.canceled then Leaving(true, false)
      else Recording(c, attempt + 1)
    case Finalizing(_) => Leaving(true, reply == Done)
    case Leaving(consumed, settled) => Over(consumed, settled)
    case Over(_, _) => pc
  }

  function SentNow(job: Job, i: nat, e: Env): Sent
    requires i < |job.candidates|
  {
    Sent(job.candidates[i], e.outcome, e.charge.(reservationId := job.res.id, channel := job.candidates[i]))
  }

  function SendsAfter(job: Job, pc: PC, sends: seq<Sent>, e: Env): seq<Sent> {
    if pc.Sending? && pc.i < |job.candidates| then sends + [SentNow(job, pc.i, e)] else sends
  }

  function Next(job: Job, w: World, e: Env): World {
    var (book, reply) := match Wanted(job, w.pc, e.now) case None => (w.book, Done) case Some(op) => Call(w.book, op, e.fault);
    World(book, Resume(job, w.pc, e, reply), SendsAfter(job, w.pc, w.sends, e))
  }

  function AfterSend(job: Job, i: nat, e: Env): PC
    requires i < |job.candidates|
  {
    if ProvedUnconsumed(e.outcome) then Releasing(i, e.outcome)
    else if !Success(e.outcome) then Leaving(true, false)
    else
      var c := SentNow(job, i, e).charge;
      if c.cost > job.res.amount then Leaving(true, false) else Recording(c, 0)
  }

  // ---- runs ----

  datatype Action = Request(e: Env) | Others(op: Op)

  /** Other requests, admins and the recovery task: they never mark, release or record someone else's reservation, but
      may try to finalize or refund it at any moment. */
  predicate Admissible(job: Job, a: Action) {
    a.Others? ==>
      && (a.op.OpMark? || a.op.OpRelease? ==> a.op.id != job.res.id)
      && (a.op.OpRecord? ==> a.op.c.reservationId != job.res.id)
  }

  function Step(job: Job, w: World, a: Action): World {
    match a
    case Request(e) => Next(job, w, e)
    case Others(op) => w.(book := Apply(w.book, op).0)
  }

  function Run(job: Job, w: World, acts: seq<Action>): World {
    if acts == [] then w else Step(job, Run(job, w, acts[..|acts| - 1]), acts[|acts| - 1])
  }

  ghost predicate AllAdmissible(job: Job, acts: seq<Action>) {
    forall i | 0 <= i < |acts| :: Admissible(job, acts[i])
  }

  /** Right after a successful Reserve. */
  ghost predicate Initial(job: Job, w: World) {
    && job.res.id in w.book.records
    && w.book.records[job.res.id].reservation == job.res
    && w.book.records[job.res.id].status == Reserved
    && w.pc == Trying(0) && w.sends == []
  }

  // ---- the invariant ----

  ghost predicate Clean(sends: seq<Sent>) {
    forall i | 0 <= i < |sends| :: ProvedUnconsumed(sends[i].outcome)
  }

  ghost predicate LastSucceeded(sends: seq<Sent>) {
    sends != [] && Clean(sends[..|sends| - 1]) && Success(sends[|sends| - 1].outcome)
  }

  function Last(sends: seq<Sent>): Sent
    requires sends != []
  {
    sends[|sends| - 1]
  }

  /** The last send was answered 2xx at a charge that the frozen amount covers. */
  ghost predicate Payable(job: Job, sends: seq<Sent>) { LastSucceeded(sends) && Last(sends).charge.cost <= job.res.amount }

  ghost predicate Refundable(rec: Record) { rec.status.Reserved? || rec.status.Refunded? }

  ghost predicate HasRecorded(rec: Record, c: Consumption) {
    (rec.status.ConsumedUnsettled? || rec.status.Settled?) && SameConsumption(rec.consumption, c)
  }

  ghost predicate Inv(job: Job, w: World) {
    && job.res.id in w.book.records
    && var rec := w.book.records[job.res.id];
    && rec.reservation == job.res
    && (w.sends == [] || Clean(w.sends[..|w.sends| - 1]))
    && (Refundable(rec) ==> Clean(w.sends))
    && (w.sends != [] ==> Last(w.sends).charge.reservationId == job.res.id && Last(w.sends).charge.channel == Last(w.sends).channel)
    && (rec.status.ConsumedUnsettled? || rec.status.Settled? ==> Payable(job, w.sends) && rec.consumption == Last(w.sends).charge)
    && match w.pc
       case Trying(_) => Refundable(rec)
       case Marking(i) => i < |job.candidates| && Refundable(rec)
       case Unmarking(_) => Clean(w.sends) && (Refundable(rec) || rec.status.InFlight?)
       case Sending(i) =>
         i < |job.candidates| && Clean(w.sends) && rec.status.InFlight? && rec.attemptChannel == job.candidates[i]
       case Releasing(_, outcome) => Clean(w.sends) && w.sends != [] && rec.status.InFlight? && ProvedUnconsumed(outcome)
       case Recording(c, attempt) =>
         && attempt < RETRIES && Payable(job, w.sends) && c == Last(w.sends).charge
         && ((rec.status.InFlight? && rec.attemptChannel == c.channel) || HasRecorded(rec, c))
       case Finalizing(c) => Payable(job, w.sends) && c == Last(w.sends).charge && HasRecorded(rec, c)
       case Leaving(consumed, settled) => ExitOk(w, rec, consumed, settled)
       case Over(consumed, settled) => ExitOk(w, rec, consumed, settled)
  }

  ghost predicate ExitOk(w: World, rec: Record, consumed: bool, settled: bool) {
    && (!consumed ==> !settled && Refundable(rec))
    && (settled ==> rec.status.Settled?)
  }

  lemma AttemptCallKeepsInv(job: Job, w: World, e: Env)
    requires Inv(job, w) && (w.pc.Marking? || w.pc.Unmarking? || w.pc.Releasing?)
    ensures Inv(job, Next(job, w, e))
  {
  }

  lemma RecordKeepsInv(job: Job, w: World, e: Env)
    requires Inv(job, w) && w.pc.Recording?
    ensures Inv(job, Next(job, w, e))
  {
  }

  lemma PayoutKeepsInv(job: Job, w: World, e: Env)
    requires Inv(job, w) && (w.pc.Finalizing? || w.pc.Leaving?)
    ensures Inv(job, Next(job, w, e))
  {
  }

  lemma SendKeepsInv(job: Job, w: World, e: Env)
    requires Inv(job, w) && w.pc.Sending?
    ensures Inv(job, Next(job, w, e))
  {
    var w' := Next(job, w, e);
    assert w'.sends[..|w'.sends| - 1] == w.sends;
  }

  lemma NextKeepsInv(job: Job, w: World, e: Env)
    requires Inv(job, w)
    ensures Inv(job, Next(job, w, e))
  {
    match w.pc
    case Sending(_) => SendKeepsInv(job, w, e);
    case Recording(_, _) => RecordKeepsInv(job, w, e);
    case Finalizing(_) => PayoutKeepsInv(job, w, e);
    case Leaving(_, _) => PayoutKeepsInv(job, w, e);
    case Trying(_) =>
    case Over(_, _) =>
    case _ => AttemptCallKeepsInv(job, w, e);
  }

  /** Someone else's call leaves a reservation alone, or settles a recorded consumption, or refunds a reserved one. */
  lemma OthersTouch(job: Job, b: Book, op: Op)
    requires job.res.id in b.records && Admissible(job, Others(op))
    ensures var records := Apply(b, op).0.records;
      && job.res.id in records
      && var rec, after := b.records[job.res.id], records[job.res.id];
      || after == rec
      || (rec.status.ConsumedUnsettled? && after == rec.(status := Settled))
      || (rec.status.Reserved? && after == rec.(status := Refunded))
  {
  }

  lemma OthersKeepInv(job: Job, w: World, op: Op)
    requires Inv(job, w) && Admissible(job, Others(op))
    ensures Inv(job, Step(job, w, Others(op)))
  {
    OthersTouch(job, w.book, op);
  }

  /** The invariant of every reachable state: any interleaving, any faults, any candidate list. */
  lemma {:induction false} RunKeepsInv(job: Job, w: World, acts: seq<Action>)
    requires Inv(job, w) && AllAdmissible(job, acts)
    ensures Inv(job, Run(job, w, acts))
  {
    if acts != [] {
      var front, a := acts[..|acts| - 1], acts[|acts| - 1];
      RunKeepsInv(job, w, front);
      match a
      case Request(e) => NextKeepsInv(job, Run(job, w, front), e);
      case Others(op) => OthersKeepInv(job, Run(job, w, front), op);
    }
  }

  lemma InitialInv(job: Job, w: World)
    requires Initial(job, w)
    ensures Inv(job, w)
  {
  }

  lemma {:induction false} RunConcat(job: Job, w: World, first: seq<Action>, second: seq<Action>)
    ensures Run(job, w, first + second) == Run(job, Run(job, w, first), second)
  {
    if second == [] {
      assert first + second == first;
    } else {
      RunConcat(job, w, first, second[..|second| - 1]);
      assert (first + second)[..|first + second| - 1] == first + second[..|second| - 1];
    }
  }

  // ---- safety over all interleavings ----

  /** A run's ledger history is a sequence of ledger calls, so every law of the ledger holds of it. */
  function LedgerOp(job: Job, w: World, a: Action): seq<Op> {
    match a
    case Others(op) => [op]
    case Request(e) =>
      match Wanted(job, w.pc, e.now)
      case None => []
      case Some(call) => if e.fault.NotApplied? then [] else [call]
  }

  function LedgerOps(job: Job, w: World, acts: seq<Action>): seq<Op> {
    if acts == [] then []
    else LedgerOps(job, w, acts[..|acts| - 1]) + LedgerOp(job, Run(job, w, acts[..|acts| - 1]), acts[|acts| - 1])
  }

  lemma OneOp(b: Book, op: Op)
    ensures Ledger.Run(b, [op]) == Apply(b, op).0
  {
    RunSnoc(b, [], op);
    assert [] + [op] == [op];
  }

  lemma CallIsOps(b: Book, op: Op, fault: Fault)
    ensures Call(b, op, fault).0 == Ledger.Run(b, if fault.NotApplied? then [] else [op])
  {
    OneOp(b, op);
  }

  lemma StepIsLedgerStep(job: Job, w: World, a: Action)
    ensures Step(job, w, a).book == Ledger.Run(w.book, LedgerOp(job, w, a))
  {
    match a
    case Others(op) => OneOp(w.book, op);
    case Request(e) =>
      match Wanted(job, w.pc, e.now)
      case None =>
      case Some(call) => CallIsOps(w.book, call, e.fault);
  }

  lemma {:induction false} RunIsLedgerRun(job: Job, w: World, acts: seq<Action>)
    ensures Run(job, w, acts).book == Ledger.Run(w.book, LedgerOps(job, w, acts))
  {
    if acts != [] {
      var front, a := acts[..|acts| - 1], acts[|acts| - 1];
      RunIsLedgerRun(job, w, front);
      StepIsLedgerStep(job, Run(job, w, front), a);
      Ledger.RunConcat(w.book, LedgerOps(job, w, front), LedgerOp(job, Run(job, w, front), a));
    }
  }

  ghost predicate IsRefunded(job: Job, w: World) {
    job.res.id in w.book.records && w.book.records[job.res.id].status.Refunded?
  }

  /** If the reservation is ever refunded, by anyone, then every send made under it before or after was proved not to
      have consumed anything: a refund never accompanies a 2xx or an unknown outcome. */
  lemma RefundMeansNothingConsumed(job: Job, w: World, acts: seq<Action>, later: seq<Action>)
    requires Initial(job, w) && AllAdmissible(job, acts + later)
    requires IsRefunded(job, Run(job, w, acts))
    ensures Clean(Run(job, w, acts + later).sends) && IsRefunded(job, Run(job, w, acts + later))
  {
    assert AllAdmissible(job, acts) by {
      forall i | 0 <= i < |acts| ensures Admissible(job, acts[i]) { assert (acts + later)[i] == acts[i]; }
    }
    InitialInv(job, w);
    RunKeepsInv(job, w, acts);
    RunKeepsInv(job, w, acts + later);
    RunConcat(job, w, acts, later);
    var mid := Run(job, w, acts);
    RunIsLedgerRun(job, mid, later);
    RunLifecycle(mid.book, LedgerOps(job, mid, later), job.res.id);
  }

  /** Every send happens while the reservation is in flight on exactly the channel that is contacted. */
  lemma SendsHappenInFlight(job: Job, w: World, acts: seq<Action>, a: Action)
    requires Initial(job, w) && AllAdmissible(job, acts)
    requires Step(job, Run(job, w, acts), a).sends != Run(job, w, acts).sends
    ensures Inv(job, Run(job, w, acts))
    ensures var before := Run(job, w, acts);
            var rec := before.book.records[job.res.id];
            && rec.status.InFlight? && a.Request?
            && var sends := Step(job, before, a).sends;
            && |sends| == |before.sends| + 1 && before.sends <= sends
            && Last(sends).channel == rec.attemptChannel && Last(sends).outcome == a.e.outcome
  {
    InitialInv(job, w);
    RunKeepsInv(job, w, acts);
  }

  lemma NoSendAfterConsumption(job: Job, w: World, a: Action)
    requires Inv(job, w) && Admissible(job, a) && !Clean(w.sends)
    ensures Step(job, w, a).sends == w.sends
  {
  }

  lemma {:induction false} SendsFrozen(job: Job, w: World, acts: seq<Action>)
    requires Inv(job, w) && AllAdmissible(job, acts) && !Clean(w.sends)
    ensures Run(job, w, acts).sends == w.sends
  {
    if acts != [] {
      SendsFrozen(job, w, acts[..|acts| - 1]);
      RunKeepsInv(job, w, acts[..|acts| - 1]);
      NoSendAfterConsumption(job, Run(job, w, acts[..|acts| - 1]), acts[|acts| - 1]);
    }
  }

  /** No replay: at most one send of a run is not proved unconsumed, and it is the last one, however long the run goes on. */
  lemma NoReplay(job: Job, w: World, acts: seq<Action>, later: seq<Action>)
    requires Initial(job, w) && AllAdmissible(job, acts) && AllAdmissible(job, later)
    ensures var sends := Run(job, w, acts).sends; sends == [] || Clean(sends[..|sends| - 1])
    ensures !Clean(Run(job, w, acts).sends) ==> Run(job, w, acts + later).sends == Run(job, w, acts).sends
  {
    InitialInv(job, w);
    RunKeepsInv(job, w, acts);
    RunConcat(job, w, acts, later);
    if !Clean(Run(job, w, acts).sends) {
      SendsFrozen(job, Run(job, w, acts), later);
    }
  }

  /** What the two flags of a finished request mean: unconsumed leaves the reservation reserved or refunded with nothing
      consumed, settled means settled at no more than the frozen amount after one successful send. */
  lemma ExitFlagsAreTrue(job: Job, w: World, acts: seq<Action>)
    requires Initial(job, w) && AllAdmissible(job, acts) && Run(job, w, acts).pc.Over?
    ensures job.res.id in Run(job, w, acts).book.records
    ensures var end := Run(job, w, acts);
            var rec := end.book.records[job.res.id];
            && (!end.pc.consumed ==> !end.pc.settled && Refundable(rec) && Clean(end.sends))
            && (end.pc.settled ==> rec.status.Settled? && Payable(job, end.sends) && rec.consumption == Last(end.sends).charge)
            && (LastSucceeded(end.sends) ==> end.pc.consumed && !Refundable(rec))
  {
    InitialInv(job, w);
    RunKeepsInv(job, w, acts);
    var sends := Run(job, w, acts).sends;
    if LastSucceeded(sends) {
      assert !ProvedUnconsumed(sends[|sends| - 1].outcome);
    }
  }

  // ---- recording a consumption with lost replies ----

  /** The retry never meets a conflict with its own earlier commit: whatever was lost before, a delivered call answers
      Done and leaves exactly this consumption recorded, and a call can only ever record this one. */
  lemma RetryNeverConflicts(job: Job, w: World, acts: seq<Action>, fault: Fault)
    requires Initial(job, w) && AllAdmissible(job, acts) && Run(job, w, acts).pc.Recording?
    ensures job.res.id in Run(job, w, acts).book.records
    ensures var now := Run(job, w, acts);
            var c := now.pc.c;
            var (book, reply) := Call(now.book, OpRecord(c), fault);
            && job.res.id in book.records
            && reply in {Done, Failed(Unavailable)}
            && (fault.Delivered? ==> reply == Done)
            && (!fault.NotApplied? ==> HasRecorded(book.records[job.res.id], c))
            && (fault.NotApplied? ==> book == now.book)
            && (now.book.records[job.res.id].status.InFlight? || book == now.book)
  {
    InitialInv(job, w);
    RunKeepsInv(job, w, acts);
  }

  // ---- what an answer leads to ----

  /** From a send to where the loop goes, when the ledger answers and the client stays: an attempt that was not dialed, or was
      refused with 401, 403 or 429, is released and the next candidate tried; other definite refusals end the request
      refundable; a 2xx is recorded if the amount covers it; anything else stops with the amount frozen. */
  lemma WhereAnswersLead(job: Job, w: World, e: Env, release: Env)
    requires Inv(job, w) && w.pc.Sending? && release.fault.Delivered? && !release.canceled
    ensures var i, sent := w.pc.i, Next(job, w, e);
      var released := Next(job, sent, release).pc;
      match e.outcome
      case NotDialed => sent.pc.Releasing? && released == Trying(i + 1)
      case NetworkError => sent.pc == Leaving(true, false)
      case Answered(s) =>
        && (200 <= s < 300 ==> sent.pc == if Last(sent.sends).charge.cost <= job.res.amount then Recording(Last(sent.sends).charge, 0)
                                          else Leaving(true, false))
        && (s in {401, 403, 429} ==> sent.pc.Releasing? && released == Trying(i + 1))
        && (s in {400, 402, 404, 405, 413, 415, 422} ==> sent.pc.Releasing? && released == Leaving(false, false))
        && (!(200 <= s < 300) && s !in {400, 401, 402, 403, 404, 405, 413, 415, 422, 429} ==> sent.pc == Leaving(true, false))
  {
    SendKeepsInv(job, w, e);
  }

  /** A recording that is not answered is tried three times in all, while the client's context lasts. */
  lemma UnansweredRecordings(job: Job, w: World, e: Env)
    requires Inv(job, w) && w.pc.Recording? && !e.fault.Delivered?
    ensures w.pc.attempt < 3
    ensures Next(job, w, e).pc == if w.pc.attempt < 2 && !e.canceled then Recording(w.pc.c, w.pc.attempt + 1) else Leaving(true, false)
  {
  }

  // ---- no candidate is passed over ----

  /** At some point of the run the loop was at this candidate; at the number of candidates, it had been through them all. */
  ghost predicate Reached(job: Job, w: World, acts: seq<Action>, i: nat) {
    exists j | 0 <= j <= |acts| :: Run(job, w, acts[..j]).pc == Trying(i)
  }

  lemma ReachedLater(job: Job, w: World, acts: seq<Action>, a: Action)
    ensures forall i: nat | Reached(job, w, acts, i) :: Reached(job, w, acts + [a], i)
  {
    forall i: nat | Reached(job, w, acts, i) ensures Reached(job, w, acts + [a], i) {
      var j :| 0 <= j <= |acts| && Run(job, w, acts[..j]).pc == Trying(i);
      assert (acts + [a])[..j] == acts[..j];
    }
  }

  /** The client stays, and no upstream refuses the request itself. */
  ghost predicate Undisturbed(acts: seq<Action>) {
    forall k | 0 <= k < |acts| && acts[k].Request? ::
      !acts[k].e.canceled && (acts[k].e.outcome.Answered? ==> acts[k].e.outcome.status !in {400, 402, 404, 405, 413, 415, 422})
  }

  /** How far the loop must have come to be here. */
  function Place(job: Job, pc: PC): nat {
    match pc
    case Trying(i) => i
    case Marking(i) => i
    case Unmarking(i) => i
    case Sending(i) => i
    case Releasing(i, _) => i
    case Leaving(consumed, _) => if consumed then 0 else |job.candidates|
    case Over(consumed, _) => if consumed then 0 else |job.candidates|
    case _ => 0
  }

  ghost predicate NoRefusalReleased(pc: PC) {
    pc.Releasing? && pc.outcome.Answered? ==> pc.outcome.status in {401, 403, 429}
  }

  lemma PlaceAdvances(job: Job, w: World, e: Env)
    requires Inv(job, w) && NoRefusalReleased(w.pc) && Undisturbed([Request(e)])
    ensures var next := Next(job, w, e).pc;
      && NoRefusalReleased(next)
      && (Place(job, next) <= Place(job, w.pc) || next == Trying(Place(job, w.pc) + 1))
  {
    assert [Request(e)][0].e == e;
  }

  lemma {:induction false} PlacesReached(job: Job, w: World, acts: seq<Action>)
    requires Inv(job, w) && w.pc == Trying(0) && AllAdmissible(job, acts) && Undisturbed(acts)
    ensures NoRefusalReleased(Run(job, w, acts).pc)
    ensures forall i: nat | i <= Place(job, Run(job, w, acts).pc) :: Reached(job, w, acts, i)
  {
    if acts == [] {
      assert acts[..0] == acts && Run(job, w, acts[..0]).pc == Trying(0);
    } else {
      var front, a := acts[..|acts| - 1], acts[|acts| - 1];
      assert acts == front + [a] && acts[..|acts|] == acts;
      PlacesReached(job, w, front);
      RunKeepsInv(job, w, front);
      ReachedLater(job, w, front, a);
      if a.Request? {
        assert [a][0] == a && Undisturbed([Request(a.e)]);
        PlaceAdvances(job, Run(job, w, front), a.e);
        assert Run(job, w, acts[..|acts|]).pc == Next(job, Run(job, w, front), a.e).pc;
      }
    }
  }

  /** A request that leaves without anything consumed, though its client stayed and no upstream refused it, has been to every
      candidate in turn. */
  lemma NoCandidateSkipped(job: Job, w: World, acts: seq<Action>, i: nat)
    requires Initial(job, w) && AllAdmissible(job, acts) && Undisturbed(acts) && i <= |job.candidates|
    requires var pc := Run(job, w, acts).pc; (pc.Leaving? || pc.Over?) && !pc.consumed
    ensures Reached(job, w, acts, i)
  {
    InitialInv(job, w);
    PlacesReached(job, w, acts);
  }

  // ---- every request ends ----

  /** Steps the request can still take. */
  function Rank(job: Job, pc: PC): nat {
    var n := |job.candidates|;
    match pc
    case Trying(i) => if i <= n then 5 * (n - i) + 8 else 8
    case Marking(i) => if i < n then 5 * (n - i) + 7 else 0
    case Unmarking(i) => if i < n then 5 * (n - i) + 6 else 9
    case Sending(i) => if i < n then 5 * (n - i) + 6 else 0
    case Releasing(i, _) => if i < n then 5 * (n - i) + 5 else 9
    case Recording(_, attempt) => if attempt < RETRIES then 4 + RETRIES - 1 - attempt else 4
    case Finalizing(_) => 3
    case Leaving(_, _) => 2
    case Over(_, _) => 0
  }

  function RequestSteps(acts: seq<Action>): nat {
    if acts == [] then 0 else RequestSteps(acts[..|acts| - 1]) + if acts[|acts| - 1].Request? then 1 else 0
  }

  lemma NextDescends(job: Job, w: World, e: Env)
    requires Inv(job, w) && !w.pc.Over?
    ensures Rank(job, Next(job, w, e).pc) < Rank(job, w.pc)
  {
  }

  lemma {:induction false} StepsBounded(job: Job, w: World, acts: seq<Action>)
    requires Inv(job, w) && AllAdmissible(job, acts)
    ensures Run(job, w, acts).pc.Over? || RequestSteps(acts) + Rank(job, Run(job, w, acts).pc) <= Rank(job, w.pc)
  {
    if acts != [] {
      var front, a := acts[..|acts| - 1], acts[|acts| - 1];
      StepsBounded(job, w, front);
      RunKeepsInv(job, w, front);
      if a.Request? && !Run(job, w, front).pc.Over? {
        NextDescends(job, Run(job, w, front), a.e);
      }
    }
  }

  /** Whatever the ledger and the upstreams do, a request is over after at most five steps a candidate and eight more. */
  lemma EveryRequestEnds(job: Job, w: World, acts: seq<Action>)
    requires Initial(job, w) && AllAdmissible(job, acts)
    requires RequestSteps(acts) > 5 * |job.candidates| + 8
    ensures Run(job, w, acts).pc.Over?
  {
    InitialInv(job, w);
    StepsBounded(job, w, acts);
  }

  // ---- endings without ledger faults ----

  ghost predicate Healthy(job: Job, b: Book) {
    WellFormed(b) && Wealth(b, job.res.userId) <= MAX_INT64
  }

  /** A charge that billing computes, for whatever usage was reported. */
  ghost predicate Billed(p: Pricing.Pricing, job: Job, c: Consumption) {
    exists u: Canonical.Usage :: c.cost == Settlement.SettlementCost(p, job.res.model, job.res.amount, u).cost
  }

  ghost predicate AllDelivered(acts: seq<Action>) {
    forall i | 0 <= i < |acts| && acts[i].Request? :: acts[i].e.fault.Delivered?
  }

  ghost predicate AllBilled(p: Pricing.Pricing, job: Job, acts: seq<Action>) {
    forall i | 0 <= i < |acts| && acts[i].Request? && Success(acts[i].e.outcome) :: Billed(p, job, acts[i].e.charge)
  }

  ghost predicate WealthFits(job: Job, w: World, acts: seq<Action>) {
    forall k | 0 <= k <= |acts| :: Wealth(Run(job, w, acts[..k]).book, job.res.userId) <= MAX_INT64
  }

  /** The ledger answers every call, 2xx answers are charged as billing charges them, and what the user owns fits int64. */
  ghost predicate FaultFree(p: Pricing.Pricing, job: Job, w: World, acts: seq<Action>) {
    AllDelivered(acts) && AllBilled(p, job, acts) && WealthFits(job, w, acts)
  }

  lemma BilledIsNonNegative(p: Pricing.Pricing, job: Job, b: Book, c: Consumption)
    requires WellFormed(b) && job.res.id in b.records && b.records[job.res.id].reservation == job.res
    requires Settlement.Sellable(p, job.res.model) && Billed(p, job, c)
    ensures 0 <= c.cost
  {
    assert RecordOk(b, job.res.id, b.records[job.res.id]);
    var u: Canonical.Usage :| c.cost == Settlement.SettlementCost(p, job.res.model, job.res.amount, u).cost;
    Settlement.ChargesAreNonNegative(p, job.res.model, job.res.amount, u);
  }

  /** Frozen on purpose: the last send may have consumed, and nobody can tell how much or the amount does not cover it. */
  ghost predicate FrozenOnPurpose(job: Job, w: World, rec: Record) {
    rec.status.InFlight? && !Clean(w.sends) && !Payable(job, w.sends)
  }

  ghost predicate FaultFreeInv(job: Job, w: World) {
    && Inv(job, w)
    && var rec := w.book.records[job.res.id];
    && match w.pc
       case Unmarking(_) => rec.status.Refunded?
       case Recording(c, _) => 0 <= c.cost
       case Finalizing(c) => 0 <= c.cost
       case Leaving(consumed, settled) => consumed ==> settled || rec.status.Refunded? || FrozenOnPurpose(job, w, rec)
       case Over(consumed, settled) => settled || rec.status.Refunded? || FrozenOnPurpose(job, w, rec)
       case _ => true
  }

  lemma FaultFreePayout(job: Job, w: World, e: Env)
    requires FaultFreeInv(job, w) && Healthy(job, w.book) && (w.pc.Finalizing? || w.pc.Leaving?)
    requires e.fault.Delivered? && Inv(job, Next(job, w, e))
    ensures FaultFreeInv(job, Next(job, w, e))
  {
    PayoutsCannotOverflow(w.book, job.res.id);
  }

  lemma FaultFreeSend(job: Job, w: World, e: Env)
    requires FaultFreeInv(job, w) && w.pc.Sending? && (Success(e.outcome) ==> 0 <= e.charge.cost) && Inv(job, Next(job, w, e))
    ensures FaultFreeInv(job, Next(job, w, e))
  {
    NotClean(w.sends, SentNow(job, w.pc.i, e));
  }

  lemma NotClean(sends: seq<Sent>, s: Sent)
    ensures !ProvedUnconsumed(s.outcome) ==> !Clean(sends + [s])
  {
    assert (sends + [s])[|sends|] == s;
  }

  lemma FaultFreeCall(job: Job, w: World, e: Env)
    requires FaultFreeInv(job, w) && !w.pc.Sending? && !w.pc.Finalizing? && !w.pc.Leaving?
    requires e.fault.Delivered? && Inv(job, Next(job, w, e))
    ensures FaultFreeInv(job, Next(job, w, e))
  {
  }

  lemma FaultFreeNext(job: Job, w: World, e: Env)
    requires FaultFreeInv(job, w) && Healthy(job, w.book)
    requires e.fault.Delivered? && (Success(e.outcome) ==> 0 <= e.charge.cost)
    ensures FaultFreeInv(job, Next(job, w, e))
  {
    NextKeepsInv(job, w, e);
    match w.pc
    case Sending(_) => FaultFreeSend(job, w, e);
    case Finalizing(_) => FaultFreePayout(job, w, e);
    case Leaving(_, _) => FaultFreePayout(job, w, e);
    case _ => FaultFreeCall(job, w, e);
  }

  lemma FaultFreeOthers(job: Job, w: World, op: Op)
    requires FaultFreeInv(job, w) && Admissible(job, Others(op))
    ensures FaultFreeInv(job, Step(job, w, Others(op)))
  {
    OthersKeepInv(job, w, op);
    StepLifecycle(w.book, op, job.res.id);
  }

  lemma {:induction false} FaultFreeRun(p: Pricing.Pricing, job: Job, w: World, acts: seq<Action>)
    requires FaultFreeInv(job, w) && WellFormed(w.book) && Settlement.Sellable(p, job.res.model)
    requires AllAdmissible(job, acts) && FaultFree(p, job, w, acts)
    ensures FaultFreeInv(job, Run(job, w, acts)) && WellFormed(Run(job, w, acts).book)
  {
    if acts != [] {
      var front, a := acts[..|acts| - 1], acts[|acts| - 1];
      forall k | 0 <= k <= |front| ensures front[..k] == acts[..k] {}
      assert AllDelivered(front) && AllBilled(p, job, front) && WealthFits(job, w, front);
      assert Wealth(Run(job, w, acts[..|front|]).book, job.res.userId) <= MAX_INT64;
      FaultFreeRun(p, job, w, front);
      var mid := Run(job, w, front);
      assert Healthy(job, mid.book);
      RunIsLedgerRun(job, w, acts);
      Conservation(w.book, LedgerOps(job, w, acts), job.res.userId);
      match a
      case Request(e) =>
        if Success(e.outcome) { BilledIsNonNegative(p, job, mid.book, e.charge); }
        FaultFreeNext(job, mid, e);
      case Others(op) => FaultFreeOthers(job, mid, op);
    }
  }

  /** Refunded iff every send was proved unconsumed, settled at the charge of the last send iff that was answered 2xx and the
      amount covers it, and otherwise deliberately frozen. */
  ghost predicate EndsWell(job: Job, w: World) {
    && job.res.id in w.book.records
    && var rec := w.book.records[job.res.id];
    && (rec.status.Refunded? <==> Clean(w.sends))
    && (rec.status.Settled? <==> Payable(job, w.sends))
    && (rec.status.Settled? ==> rec.consumption == Last(w.sends).charge)
    && (rec.status.Refunded? || rec.status.Settled? || FrozenOnPurpose(job, w, rec))
  }

  /** With a ledger that answers, positive prices and amounts that fit, a finished request has ended well: never still
      reserved and never consumed without being settled. */
  lemma FaultFreeEnding(p: Pricing.Pricing, job: Job, w: World, acts: seq<Action>)
    requires Initial(job, w) && WellFormed(w.book) && Settlement.Sellable(p, job.res.model)
    requires AllAdmissible(job, acts) && FaultFree(p, job, w, acts) && Run(job, w, acts).pc.Over?
    ensures EndsWell(job, Run(job, w, acts))
  {
    FaultFreeRun(p, job, w, acts);
    var end := Run(job, w, acts);
    if LastSucceeded(end.sends) { assert !Clean(end.sends) by { assert !ProvedUnconsumed(Last(end.sends).outcome); } }
  }
}
