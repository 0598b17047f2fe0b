/** The request against the production database: every ledger call is a transaction that may roll back or lose its
    answer. Each run is, timestamps erased, a run of the request protocol, so the safety laws of the protocol hold of it. */
module Production {
  import opened Int64
  import opened Ledger
  import opened PostgresModel
  import opened Protocol

  /** A transaction that commits and answers, commits or fails unheard, or never reaches the database. */
  function Ask(db: DB, tx: Tx, fault: Fault): (DB, Reply) {
    match fault
    case Delivered => Commit(db, tx)
    case ReplyLost => (Commit(db, tx).0, Failed(Unavailable))
    case NotApplied => (db, Failed(Unavailable))
  }

  function TxOf(op: Op, now: int): Tx {
    match op
    case OpReserve(r) => TxReserve(r, now)
    case OpMark(id, channel, at) => TxMark(id, channel, at)
    case OpRelease(id) => TxRelease(id, now)
    case OpRecord(c) => TxRecord(c)
    case OpFinalize(id) => TxFinalize(id, now)
    case OpRefund(id) => TxRefund(id, now)
    case OpAdminAdd(user, delta) => TxAdminAdd(user, delta)
    case OpCreateUser(user, balance, enabled) => TxCreateUser(user, balance, enabled)
    case OpSetEnabled(user, enabled) => TxSetEnabled(user, enabled)
  }

  datatype Service = Service(db: DB, pc: PC, sends: seq<Sent>)

  /** One step of the request, with the same control flow as on the book. */
  function Serve(job: Job, s: Service, e: Env): Service {
    var (db, reply) := match Wanted(job, s.pc, e.now) case None => (s.db, Done) case Some(op) => Ask(s.db, TxOf(op, e.now), e.fault);
    Service(db, Resume(job, s.pc, e, reply), SendsAfter(job, s.pc, s.sends, e))
  }

  datatype Deed = Own(e: Env) | Foreign(tx: Tx)

  /** Other processes never mark, release or record someone else's reservation. */
  predicate Fair(job: Job, d: Deed) {
    d.Foreign? ==>
      && (d.tx.TxMark? || d.tx.TxRelease? ==> d.tx.id != job.res.id)
      && (d.tx.TxRecord? ==> d.tx.c.reservationId != job.res.id)
  }

  ghost predicate AllFair(job: Job, deeds: seq<Deed>) { forall i | 0 <= i < |deeds| :: Fair(job, deeds[i]) }

  function Do(job: Job, s: Service, d: Deed): Service {
    match d
    case Own(e) => Serve(job, s, e)
    case Foreign(tx) => s.(db := Commit(s.db, tx).0)
  }

  function Course(job: Job, s: Service, deeds: seq<Deed>): Service {
    if deeds == [] then s else Do(job, Course(job, s, deeds[..|deeds| - 1]), deeds[|deeds| - 1])
  }

  // ---- the run it stands for ----

  function Timeless(c: Consumption): Consumption { c.(recordedAt := 0) }

  function AbsJob(job: Job): Job { job.(res := job.res.(createdAt := None)) }

  function AbsPC(pc: PC): PC {
    match pc
    case Recording(c, attempt) => Recording(Timeless(c), attempt)
    case Finalizing(c) => Finalizing(Timeless(c))
    case _ => pc
  }

  function AbsSends(sends: seq<Sent>): seq<Sent> {
    seq(|sends|, i requires 0 <= i < |sends| => sends[i].(charge := Timeless(sends[i].charge)))
  }

  function AbsWorld(s: Service): World { World(Abs(s.db), AbsPC(s.pc), AbsSends(s.sends)) }

  /** Whether the call of the next step commits. */
  predicate Commits(job: Job, s: Service, e: Env) {
    match Wanted(job, s.pc, e.now)
    case None => true
    case Some(op) => Commit(s.db, TxOf(op, e.now)).1 == Done
  }

  function Heard(e: Env): Env { e.(now := 0, charge := Timeless(e.charge)) }

  /** A call that does not commit is one that does not take effect; where its error forbids another try, the request
      gives up as if it had been canceled. */
  function Unheard(pc: PC, e: Env, after: PC): Env {
    Heard(e).(fault := NotApplied, canceled := e.canceled || (pc.Recording? && after.Leaving?))
  }

  function Shadow(job: Job, s: Service, e: Env): Env {
    if Commits(job, s, e) then Heard(e) else Unheard(s.pc, e, Serve(job, s, e).pc)
  }

  function Shadows(job: Job, s: Service, d: Deed): seq<Action> {
    match d
    case Own(e) => [Request(Shadow(job, s, e))]
    case Foreign(tx) => if Commit(s.db, tx).1 == Done then [Others(OpOf(tx))] else []
  }

  function AllShadows(job: Job, s: Service, deeds: seq<Deed>): seq<Action> {
    if deeds == [] then []
    else AllShadows(job, s, deeds[..|deeds| - 1]) + Shadows(job, Course(job, s, deeds[..|deeds| - 1]), deeds[|deeds| - 1])
  }

  // ---- simulation ----

  lemma WantedIsShadowed(job: Job, s: Service, e: Env)
    ensures match Wanted(job, s.pc, e.now)
      case None => Wanted(AbsJob(job), AbsPC(s.pc), 0).None?
      case Some(op) => Wanted(AbsJob(job), AbsPC(s.pc), 0) == Some(OpOf(TxOf(op, e.now)))
  {
  }

  /** The answers agree, except that an error of the database other than being unavailable is heard as unavailable. */
  lemma AskIsCall(db: DB, op: Op, now: int, fault: Fault)
    requires Agreement(db)
    ensures var tx := TxOf(op, now);
      var (db1, reply) := Ask(db, tx, fault);
      && Agreement(db1)
      && if Commit(db, tx).1 == Done then Call(Abs(db), OpOf(tx), fault) == (Abs(db1), reply)
         else Call(Abs(db), OpOf(tx), NotApplied).0 == Abs(db1) && reply != Done
  {
    var tx := TxOf(op, now);
    CommitAgrees(db, tx, "", 0);
    if Commit(db, tx).1 == Done { CommitRefines(db, tx); } else { RolledBackUnlessDone(db, tx); }
  }

  lemma ResumeIsShadowed(job: Job, pc: PC, sends: seq<Sent>, e: Env, reply: Reply)
    ensures AbsPC(Resume(job, pc, e, reply)) == Resume(AbsJob(job), AbsPC(pc), Heard(e), reply)
    ensures AbsSends(SendsAfter(job, pc, sends, e)) == SendsAfter(AbsJob(job), AbsPC(pc), AbsSends(sends), Heard(e))
  {
  }

  lemma GivingUpIsShadowed(job: Job, pc: PC, sends: seq<Sent>, e: Env, reply: Reply)
    requires Wanted(job, pc, e.now).Some? && reply != Done
    ensures var after := Resume(job, pc, e, reply);
      && AbsPC(after) == Resume(AbsJob(job), AbsPC(pc), Unheard(pc, e, after), Failed(Unavailable))
      && AbsSends(SendsAfter(job, pc, sends, e)) == SendsAfter(AbsJob(job), AbsPC(pc), AbsSends(sends), Unheard(pc, e, after))
  {
  }

  lemma ServeIsNext(job: Job, s: Service, e: Env)
    requires Agreement(s.db)
    ensures Agreement(Serve(job, s, e).db)
    ensures Next(AbsJob(job), AbsWorld(s), Shadow(job, s, e)) == AbsWorld(Serve(job, s, e))
  {
    WantedIsShadowed(job, s, e);
    match Wanted(job, s.pc, e.now)
    case None => ResumeIsShadowed(job, s.pc, s.sends, e, Done);
    case Some(op) =>
      var reply := Ask(s.db, TxOf(op, e.now), e.fault).1;
      AskIsCall(s.db, op, e.now, e.fault);
      if Commits(job, s, e) {
        ResumeIsShadowed(job, s.pc, s.sends, e, reply);
      } else {
        GivingUpIsShadowed(job, s.pc, s.sends, e, reply);
      }
  }

  lemma OneAct(job: Job, w: World, a: Action)
    ensures Protocol.Run(job, w, [a]) == Step(job, w, a)
    ensures AllAdmissible(job, [a]) <==> Admissible(job, a)
  {
    assert [a][..0] == [] && [a][0] == a;
  }

  lemma ForeignIsOther(job: Job, s: Service, tx: Tx)
    requires Agreement(s.db) && Fair(job, Foreign(tx))
    ensures Agreement(Commit(s.db, tx).0)
    ensures if Commit(s.db, tx).1 == Done
            then Step(AbsJob(job), AbsWorld(s), Others(OpOf(tx))) == AbsWorld(Do(job, s, Foreign(tx)))
              && Admissible(AbsJob(job), Others(OpOf(tx)))
            else Do(job, s, Foreign(tx)) == s
  {
    CommitAgrees(s.db, tx, "", 0);
    if Commit(s.db, tx).1 == Done { CommitRefines(s.db, tx); } else { RolledBackUnlessDone(s.db, tx); }
  }

  lemma DoIsRun(job: Job, s: Service, d: Deed)
    requires Agreement(s.db) && Fair(job, d)
    ensures Agreement(Do(job, s, d).db)
    ensures Protocol.Run(AbsJob(job), AbsWorld(s), Shadows(job, s, d)) == AbsWorld(Do(job, s, d))
    ensures AllAdmissible(AbsJob(job), Shadows(job, s, d))
  {
    match d
    case Own(e) =>
      ServeIsNext(job, s, e);
      OneAct(AbsJob(job), AbsWorld(s), Request(Shadow(job, s, e)));
    case Foreign(tx) =>
      ForeignIsOther(job, s, tx);
      OneAct(AbsJob(job), AbsWorld(s), Others(OpOf(tx)));
  }

  /** Every course of a request over the database is, timestamps erased, a run of the protocol with the same sends. */
  lemma {:induction false} CourseIsRun(job: Job, s: Service, deeds: seq<Deed>)
    requires Agreement(s.db) && AllFair(job, deeds)
    ensures Agreement(Course(job, s, deeds).db)
    ensures Protocol.Run(AbsJob(job), AbsWorld(s), AllShadows(job, s, deeds)) == AbsWorld(Course(job, s, deeds))
    ensures AllAdmissible(AbsJob(job), AllShadows(job, s, deeds))
  {
    if deeds != [] {
      var front, d := deeds[..|deeds| - 1], deeds[|deeds| - 1];
      CourseIsRun(job, s, front);
      DoIsRun(job, Course(job, s, front), d);
      Protocol.RunConcat(AbsJob(job), AbsWorld(s), AllShadows(job, s, front), Shadows(job, Course(job, s, front), d));
    }
  }

  lemma {:induction false} EarlierShadows(job: Job, s: Service, deeds: seq<Deed>, k: nat)
    requires k <= |deeds|
    ensures AllShadows(job, s, deeds[..k]) <= AllShadows(job, s, deeds)
    decreases |deeds|
  {
    if k == |deeds| {
      assert deeds[..k] == deeds;
    } else {
      var front := deeds[..|deeds| - 1];
      EarlierShadows(job, s, front, k);
      assert front[..k] == deeds[..k];
    }
  }

  /** The run a course stands for goes on from the run that any earlier moment stands for. */
  lemma MomentIsRun(job: Job, s: Service, deeds: seq<Deed>, k: nat) returns (acts: seq<Action>, later: seq<Action>)
    requires Agreement(s.db) && AllFair(job, deeds) && k <= |deeds|
    ensures AllAdmissible(AbsJob(job), acts) && AllAdmissible(AbsJob(job), later) && AllAdmissible(AbsJob(job), acts + later)
    ensures Protocol.Run(AbsJob(job), AbsWorld(s), acts) == AbsWorld(Course(job, s, deeds[..k]))
    ensures Protocol.Run(AbsJob(job), AbsWorld(s), acts + later) == AbsWorld(Course(job, s, deeds))
  {
    var all := AllShadows(job, s, deeds);
    acts := AllShadows(job, s, deeds[..k]);
    EarlierShadows(job, s, deeds, k);
    later := all[|acts|..];
    assert acts + later == all;
    CourseIsRun(job, s, deeds[..k]);
    CourseIsRun(job, s, deeds);
  }

  // ---- what carries over ----

  /** Where a request starts: its reservation is the committed row, in an explained database. */
  ghost predicate Begins(job: Job, s: Service) {
    Agreement(s.db) && Initial(AbsJob(job), AbsWorld(s))
  }

  lemma ReserveBegins(job: Job, db: DB, now: int)
    requires Agreement(db) && Commit(db, TxReserve(job.res, now)).1 == Done
    ensures Begins(job, Service(Commit(db, TxReserve(job.res, now)).0, Trying(0), []))
  {
    CommitAgrees(db, TxReserve(job.res, now), "", 0);
    CommitRefines(db, TxReserve(job.res, now));
  }

  ghost predicate RowHas(s: Service, id: string, status: Status) {
    id in s.db.reservations && s.db.reservations[id].status == status
  }

  lemma AbsClean(sends: seq<Sent>)
    ensures Clean(AbsSends(sends)) <==> Clean(sends)
    ensures sends != [] ==> Clean(AbsSends(sends)[..|sends| - 1]) == Clean(sends[..|sends| - 1])
    ensures LastSucceeded(AbsSends(sends)) <==> LastSucceeded(sends)
  {
    assert forall i | 0 <= i < |sends| :: AbsSends(sends)[i].outcome == sends[i].outcome;
    if sends != [] {
      var front := sends[..|sends| - 1];
      assert AbsSends(sends)[..|sends| - 1] == AbsSends(front);
      assert forall i | 0 <= i < |front| :: AbsSends(front)[i].outcome == front[i].outcome;
      if Clean(AbsSends(sends)) {
        forall i | 0 <= i < |sends| ensures ProvedUnconsumed(sends[i].outcome) { assert ProvedUnconsumed(AbsSends(sends)[i].outcome); }
      }
      if Clean(AbsSends(front)) {
        forall i | 0 <= i < |front| ensures ProvedUnconsumed(front[i].outcome) { assert ProvedUnconsumed(AbsSends(front)[i].outcome); }
      }
    }
  }

  lemma AbsRefunded(job: Job, s: Service)
    ensures IsRefunded(AbsJob(job), AbsWorld(s)) <==> RowHas(s, job.res.id, Refunded)
  {
  }

  lemma {:induction false} SendsGrow(job: Job, s: Service, deeds: seq<Deed>, k: nat)
    requires k <= |deeds|
    ensures Course(job, s, deeds[..k]).sends <= Course(job, s, deeds).sends
    decreases |deeds|
  {
    if k == |deeds| {
      assert deeds[..k] == deeds;
    } else {
      var front := deeds[..|deeds| - 1];
      SendsGrow(job, s, front, k);
      assert front[..k] == deeds[..k];
    }
  }

  /** On the production ledger too, a refund at any time means that no send before or after may have consumed. */
  lemma RefundMeansNothingConsumed(job: Job, s: Service, deeds: seq<Deed>, k: nat)
    requires Begins(job, s) && AllFair(job, deeds) && k <= |deeds|
    requires RowHas(Course(job, s, deeds[..k]), job.res.id, Refunded)
    ensures Clean(Course(job, s, deeds).sends) && RowHas(Course(job, s, deeds), job.res.id, Refunded)
  {
    var acts, later := MomentIsRun(job, s, deeds, k);
    AbsRefunded(job, Course(job, s, deeds[..k]));
    AbsRefunded(job, Course(job, s, deeds));
    AbsClean(Course(job, s, deeds).sends);
    Protocol.RefundMeansNothingConsumed(AbsJob(job), AbsWorld(s), acts, later);
  }

  /** And at most one send, the last, is not proved unconsumed, however long the course goes on. */
  lemma NoReplay(job: Job, s: Service, deeds: seq<Deed>, k: nat)
    requires Begins(job, s) && AllFair(job, deeds) && k <= |deeds|
    ensures var sends := Course(job, s, deeds[..k]).sends; sends == [] || Clean(sends[..|sends| - 1])
    ensures !Clean(Course(job, s, deeds[..k]).sends) ==> Course(job, s, deeds).sends == Course(job, s, deeds[..k]).sends
  {
    var acts, later := MomentIsRun(job, s, deeds, k);
    AbsClean(Course(job, s, deeds[..k]).sends);
    SendsGrow(job, s, deeds, k);
    Protocol.NoReplay(AbsJob(job), AbsWorld(s), acts, later);
    var before, after := Course(job, s, deeds[..k]).sends, Course(job, s, deeds).sends;
    if !Clean(before) { assert |AbsSends(after)| == |AbsSends(before)| && after[..|before|] == after; }
  }

  /** The exit flags of a finished request tell the truth about its row and its sends. */
  lemma ExitFlagsAreTrue(job: Job, s: Service, deeds: seq<Deed>)
    requires Begins(job, s) && AllFair(job, deeds) && Course(job, s, deeds).pc.Over?
    ensures job.res.id in Course(job, s, deeds).db.reservations
    ensures var end := Course(job, s, deeds);
      var row := end.db.reservations[job.res.id];
      && (!end.pc.consumed ==> !end.pc.settled && (row.status.Reserved? || row.status.Refunded?) && Clean(end.sends))
      && (end.pc.settled ==> row.status.Settled? && Payable(job, end.sends)
                             && row.channel == Last(end.sends).channel && row.fact == FactOf(Last(end.sends).charge))
      && (LastSucceeded(end.sends) ==> end.pc.consumed && !row.status.Reserved? && !row.status.Refunded?)
  {
    CourseIsRun(job, s, deeds);
    AbsClean(Course(job, s, deeds).sends);
    Protocol.ExitFlagsAreTrue(AbsJob(job), AbsWorld(s), AllShadows(job, s, deeds));
    RunKeepsInv(AbsJob(job), AbsWorld(s), AllShadows(job, s, deeds));
  }
}
