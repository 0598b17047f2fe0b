/** The circuit breaker of one channel: generation-stamped permits, and what every interleaving of admissions and
    (possibly late or repeated) results keeps true. */
module CircuitBreaker {
  import opened Int64

  datatype Gate = Closed | Open | HalfOpen

  datatype Verdict = Success | Failure | Neutral

  datatype Config = Config(threshold: int, cooldown: int, maxProbes: int)

  const DEFAULT_COOLDOWN := 30_000_000_000

  /** Positive parameters stay; others fall back to five failures, thirty seconds and one probe. */
  function Normalized(c: Config): (r: Config)
    ensures 0 < c.threshold == r.threshold || c.threshold <= 0 < r.threshold == 5
    ensures 0 < c.cooldown == r.cooldown || c.cooldown <= 0 < r.cooldown == 30_000_000_000
    ensures 0 < c.maxProbes == r.maxProbes || c.maxProbes <= 0 < r.maxProbes == 1
  {
    Config(if c.threshold <= 0 then 5 else c.threshold, if c.cooldown <= 0 then DEFAULT_COOLDOWN else c.cooldown,
           if c.maxProbes <= 0 then 1 else c.maxProbes)
  }

  datatype State = State(gate: Gate, consecutiveFail: nat, openedAt: int, probes: nat, generation: nat)

  const NEW_STATE := State(Closed, 0, 0, 0, 0)

  function Trip(s: State, now: int): State {
    s.(gate := Open, openedAt := now, probes := 0, generation := s.generation + 1)
  }

  predicate Ready(c: Config, s: State, now: int) {
    match s.gate
    case Closed => true
    case Open => now - s.openedAt >= c.cooldown
    case HalfOpen => s.probes < c.maxProbes
  }

  /** Admission; a permit carries the generation of the new state. */
  function Allow(c: Config, s: State, now: int): (State, bool) {
    match s.gate
    case Closed => (s, true)
    case Open =>
      if now - s.openedAt >= c.cooldown then (s.(gate := HalfOpen, generation := s.generation + 1, probes := 1), true)
      else (s, false)
    case HalfOpen => if s.probes < c.maxProbes then (s.(probes := s.probes + 1), true) else (s, false)
  }

  function Recorded(c: Config, s: State, generation: nat, v: Verdict, now: int): State {
    if generation != s.generation then s
    else match (v, s.gate)
         case (Success, Closed) => s.(consecutiveFail := 0)
         case (Success, HalfOpen) => State(Closed, 0, s.openedAt, 0, s.generation + 1)
         case (Failure, HalfOpen) => Trip(s, now)
         case (Failure, Closed) =>
           var counted := s.(consecutiveFail := s.consecutiveFail + 1);
           if counted.consecutiveFail >= c.threshold then Trip(counted, now) else counted
         case (Neutral, HalfOpen) => if s.probes > 0 then s.(probes := s.probes - 1) else s
         case _ => s
  }

  // ---- the breaker and its permits as objects ----

  class Breaker {
    const cfg: Config
    var gate: Gate
    var consecutiveFail: nat
    var openedAt: int
    var probes: nat
    var generation: nat

    constructor (cfg: Config)
      ensures this.cfg == Normalized(cfg) && View() == NEW_STATE
    {
      this.cfg := Normalized(cfg);
      gate, consecutiveFail, openedAt, probes, generation := Closed, 0, 0, 0, 0;
    }

    function View(): State
      reads this
    {
      State(gate, consecutiveFail, openedAt, probes, generation)
    }

    method IsReady(now: int) returns (r: bool)
      ensures r == Ready(cfg, View(), now)
    {
      match gate {
        case Closed => return true;
        case Open => return now - openedAt >= cfg.cooldown;
        case HalfOpen => return probes < cfg.maxProbes;
      }
    }

    method Admit(now: int) returns (permit: BreakerPermit?)
      modifies this
      ensures (View(), permit != null) == Allow(cfg, old(View()), now)
      ensures permit != null ==> fresh(permit) && permit.breaker == this && permit.generation == generation && !permit.used && permit.verdict == None
    {
      match gate {
        case Closed =>
          permit := new BreakerPermit(this);
        case Open =>
          if now - openedAt < cfg.cooldown { return null; }
          gate := HalfOpen;
          generation := generation + 1;
          probes := 1;
          permit := new BreakerPermit(this);
        case HalfOpen =>
          if probes >= cfg.maxProbes { return null; }
          probes := probes + 1;
          permit := new BreakerPermit(this);
      }
    }

    method Record(gen: nat, v: Verdict, now: int)
      modifies this
      ensures View() == Recorded(cfg, old(View()), gen, v, now)
    {
      if gen != generation { return; }
      match v {
        case Success =>
          match gate {
            case Closed => consecutiveFail := 0;
            case HalfOpen =>
              consecutiveFail := 0;
              gate := Closed;
              probes := 0;
              generation := generation + 1;
            case Open =>
          }
        case Failure =>
          match gate {
            case HalfOpen => TripNow(now);
            case Closed =>
              consecutiveFail := consecutiveFail + 1;
              if consecutiveFail >= cfg.threshold { TripNow(now); }
            case Open =>
          }
        case Neutral =>
          if gate == HalfOpen && probes > 0 { probes := probes - 1; }
      }
    }

    method TripNow(now: int)
      modifies this
      ensures View() == Trip(old(View()), now)
    {
      gate := Open;
      openedAt := now;
      probes := 0;
      generation := generation + 1;
    }
  }

  class BreakerPermit {
    const breaker: Breaker
    const generation: nat
    var used: bool
    ghost var verdict: Option<Verdict>

    constructor (breaker: Breaker)
      ensures this.breaker == breaker && this.generation == breaker.generation && !used && verdict == None
    {
      this.breaker, this.generation, this.used, this.verdict := breaker, breaker.generation, false, None;
    }

    /** Only the first result of a permit counts. */
    method Resolve(v: Verdict, now: int)
      modifies this, breaker
      ensures used && verdict == if old(used) then old(verdict) else Some(v)
      ensures breaker.View() == if old(used) then old(breaker.View()) else Recorded(breaker.cfg, old(breaker.View()), generation, v, now)
    {
      if !used {
        used, verdict := true, Some(v);
        breaker.Record(generation, v, now);
      }
    }
  }

  // ---- all interleavings ----

  datatype Permit = Permit(generation: nat, result: Option<Verdict>)

  /** `log` keeps the first result of every permit, in the order they came in. */
  datatype System = System(state: State, permits: seq<Permit>, log: seq<Permit>)

  datatype Action = Admission(now: int) | Result(permit: nat, verdict: Verdict, now: int)

  function Step(c: Config, y: System, a: Action): System {
    match a
    case Admission(now) =>
      var (s, allowed) := Allow(c, y.state, now);
      System(s, if allowed then y.permits + [Permit(s.generation, None)] else y.permits, y.log)
    case Result(i, v, now) =>
      if i >= |y.permits| || y.permits[i].result.Some? then y
      else
        var p := y.permits[i].(result := Some(v));
        System(Recorded(c, y.state, p.generation, v, now), y.permits[i := p], y.log + [p])
  }

  function Run(c: Config, y: System, acts: seq<Action>): System {
    if acts == [] then y else Step(c, Run(c, y, acts[..|acts| - 1]), acts[|acts| - 1])
  }

  const INITIAL := System(NEW_STATE, [], [])

  function Outstanding(permits: seq<Permit>, generation: nat): nat {
    if permits == [] then 0
    else Outstanding(permits[..|permits| - 1], generation)
         + if permits[|permits| - 1] == Permit(generation, None) then 1 else 0
  }

  /** Length of the run of failures that ends the non-neutral results of one generation. */
  function TrailingFailures(log: seq<Permit>, generation: nat): nat {
    if log == [] then 0
    else
      var front, last := log[..|log| - 1], log[|log| - 1];
      if last.generation != generation || last.result == Some(Neutral) then TrailingFailures(front, generation)
      else if last.result == Some(Failure) then TrailingFailures(front, generation) + 1
      else 0
  }

  ghost predicate Inv(c: Config, y: System) {
    var s := y.state;
    && (forall i | 0 <= i < |y.permits| :: y.permits[i].generation <= s.generation)
    && (forall i | 0 <= i < |y.log| :: y.log[i].generation <= s.generation)
    && match s.gate
       case Closed => s.consecutiveFail == TrailingFailures(y.log, s.generation) < c.threshold && s.probes == 0
       case Open => s.probes == 0 && forall i | 0 <= i < |y.permits| :: y.permits[i].generation < s.generation
       case HalfOpen => s.probes == Outstanding(y.permits, s.generation) <= c.maxProbes
  }

  lemma {:induction false} NoneOutstanding(permits: seq<Permit>, generation: nat)
    requires forall i | 0 <= i < |permits| :: permits[i].generation < generation
    ensures Outstanding(permits, generation) == 0
  {
    if permits != [] { NoneOutstanding(permits[..|permits| - 1], generation); }
  }

  lemma {:induction false} NoFailuresYet(log: seq<Permit>, generation: nat)
    requires forall i | 0 <= i < |log| :: log[i].generation < generation
    ensures TrailingFailures(log, generation) == 0
  {
    if log != [] { NoFailuresYet(log[..|log| - 1], generation); }
  }

  lemma {:induction false} ResolvingOne(permits: seq<Permit>, i: nat, v: Verdict, generation: nat)
    requires i < |permits| && permits[i].result.None?
    ensures Outstanding(permits[i := permits[i].(result := Some(v))], generation)
         == Outstanding(permits, generation) - if permits[i].generation == generation then 1 else 0
    decreases |permits|
  {
    var after := permits[i := permits[i].(result := Some(v))];
    var n := |permits| - 1;
    if i == n {
      assert after[..n] == permits[..n];
    } else {
      ResolvingOne(permits[..n], i, v, generation);
      assert after[..n] == permits[..n][i := permits[i].(result := Some(v))];
    }
  }

  lemma AdmissionKeepsInv(c: Config, y: System, now: int)
    requires 0 < c.threshold && 0 < c.maxProbes && Inv(c, y)
    ensures Inv(c, Step(c, y, Admission(now)))
  {
    var z := Step(c, y, Admission(now));
    if z.permits != y.permits {
      assert z.permits[..|y.permits|] == y.permits;
      if y.state.gate == Open { NoneOutstanding(y.permits, z.state.generation); }
    }
  }

  lemma ResultKeepsInv(c: Config, y: System, i: nat, v: Verdict, now: int)
    requires 0 < c.threshold && 0 < c.maxProbes && Inv(c, y)
    requires i < |y.permits| && y.permits[i].result.None?
    ensures Inv(c, Step(c, y, Result(i, v, now)))
  {
    var z := Step(c, y, Result(i, v, now));
    var p := y.permits[i].(result := Some(v));
    assert z.log[..|y.log|] == y.log;
    ResolvingOne(y.permits, i, v, y.state.generation);
    if z.state.gate == Closed && y.state.gate == HalfOpen {
      NoFailuresYet(z.log, z.state.generation);
    }
  }

  /** The invariant of every reachable system: in half-open the probe count is exactly the number of unresolved permits
      of the current generation; in open none of that generation exists; in closed the failure count is the trailing
      failure run of that generation and below the threshold. */
  lemma {:induction false} RunKeepsInv(c: Config, acts: seq<Action>)
    requires 0 < c.threshold && 0 < c.maxProbes
    ensures Inv(c, Run(c, INITIAL, acts))
  {
    if acts != [] {
      var y, a := Run(c, INITIAL, acts[..|acts| - 1]), acts[|acts| - 1];
      RunKeepsInv(c, acts[..|acts| - 1]);
      match a
      case Admission(now) => AdmissionKeepsInv(c, y, now);
      case Result(i, v, now) =>
        if i < |y.permits| && y.permits[i].result.None? { ResultKeepsInv(c, y, i, v, now); }
    }
  }

  /** Results of an earlier generation and repeated results never change the breaker. */
  lemma StaleResultsAreIgnored(c: Config, y: System, i: nat, v: Verdict, now: int)
    requires i < |y.permits| && (y.permits[i].generation != y.state.generation || y.permits[i].result.Some?)
    ensures Step(c, y, Result(i, v, now)).state == y.state
  {
  }

  // ---- when the gate moves ----

  /** The action is the first result of a permit of the current generation. */
  predicate Counts(y: System, a: Action) {
    a.Result? && a.permit < |y.permits| && y.permits[a.permit] == Permit(y.state.generation, None)
  }

  predicate Issues(y: System, z: System) { |z.permits| == |y.permits| + 1 }

  /** One failure more than the run of failures so far, in a log that one counting failure extends. */
  lemma OneMoreFailure(log: seq<Permit>, p: Permit, generation: nat)
    requires p.generation == generation && p.result == Some(Failure)
    ensures TrailingFailures(log + [p], generation) == TrailingFailures(log, generation) + 1
  {
    assert (log + [p])[..|log|] == log;
  }

  ghost predicate GateMoved(c: Config, y: System, a: Action, z: System) {
    var (before, after) := (y.state.gate, z.state.gate);
    && (before == Closed ==> after == if Counts(y, a) && a.verdict == Failure
                                        && TrailingFailures(z.log, y.state.generation) >= c.threshold then Open else Closed)
    && (before == HalfOpen ==> after == if !Counts(y, a) || a.verdict == Neutral then HalfOpen
                                        else if a.verdict == Success then Closed else Open)
    && (before == Open ==> after == if Issues(y, z) then HalfOpen else Open)
    && z.state.generation == y.state.generation + if before == after then 0 else 1
  }

  lemma ResultMoves(c: Config, y: System, a: Action)
    requires 0 < c.threshold && 0 < c.maxProbes && Inv(c, y) && a.Result?
    ensures GateMoved(c, y, a, Step(c, y, a))
  {
    if Counts(y, a) {
      var p := y.permits[a.permit].(result := Some(a.verdict));
      assert Step(c, y, a).log == y.log + [p];
      if a.verdict == Failure { OneMoreFailure(y.log, p, y.state.generation); }
    }
  }

  /** The gate opens on the failure that completes a run of as many failures as the threshold, or on a failed probe; it closes
      on a probe that succeeds; it goes half-open on an admission; every such move, and nothing else, starts a generation. */
  lemma GateMoves(c: Config, acts: seq<Action>, a: Action)
    requires 0 < c.threshold && 0 < c.maxProbes
    ensures GateMoved(c, Run(c, INITIAL, acts), a, Step(c, Run(c, INITIAL, acts), a))
  {
    RunKeepsInv(c, acts);
    if a.Result? { ResultMoves(c, Run(c, INITIAL, acts), a); }
  }

  /** A closed breaker admits always, a half-open one while fewer permits of its generation than the limit are unresolved;
      a permit belongs to the generation that its admission leaves. */
  lemma AdmittedIff(c: Config, acts: seq<Action>, now: int)
    requires 0 < c.threshold && 0 < c.maxProbes
    ensures var y, z := Run(c, INITIAL, acts), Step(c, Run(c, INITIAL, acts), Admission(now));
      && (y.state.gate == Closed ==> Issues(y, z))
      && (y.state.gate == HalfOpen ==> (Issues(y, z) <==> Outstanding(y.permits, y.state.generation) < c.maxProbes))
      && z.permits == if Issues(y, z) then y.permits + [Permit(z.state.generation, None)] else y.permits
  {
    RunKeepsInv(c, acts);
  }

  /** The clock of the last action that opened the breaker. */
  ghost function LastTrip(c: Config, acts: seq<Action>): Option<int> {
    if acts == [] then None
    else
      var front, last := acts[..|acts| - 1], acts[|acts| - 1];
      if Run(c, INITIAL, front).state.gate != Open && Run(c, INITIAL, acts).state.gate == Open then Some(last.now)
      else LastTrip(c, front)
  }

  lemma {:induction false} OpenSinceLastTrip(c: Config, acts: seq<Action>)
    ensures Run(c, INITIAL, acts).state.gate == Open ==> LastTrip(c, acts) == Some(Run(c, INITIAL, acts).state.openedAt)
  {
    if acts != [] { OpenSinceLastTrip(c, acts[..|acts| - 1]); }
  }

  /** No admission is asked for at or after the deadline; results may come at any clock. */
  ghost predicate AskedBefore(acts: seq<Action>, deadline: int) {
    forall i | 0 <= i < |acts| && acts[i].Admission? :: acts[i].now < deadline
  }

  lemma {:induction false} StaysOpen(c: Config, past: seq<Action>, acts: seq<Action>)
    requires 0 < c.threshold && 0 < c.maxProbes
    requires Run(c, INITIAL, past).state.gate == Open
    requires AskedBefore(acts, Run(c, INITIAL, past).state.openedAt + c.cooldown)
    ensures var y, z := Run(c, INITIAL, past), Run(c, Run(c, INITIAL, past), acts);
      z.state == y.state && |z.permits| == |y.permits|
      && forall i | 0 <= i < |y.permits| :: z.permits[i].generation == y.permits[i].generation
  {
    RunKeepsInv(c, past);
    if acts != [] {
      StaysOpen(c, past, acts[..|acts| - 1]);
    }
  }

  /** Once open, the breaker issues no permit before the cooldown since the action that opened it is over, whatever results
      arrive; the first admission at or after that time is granted. */
  lemma NothingIssuedDuringCooldown(c: Config, past: seq<Action>, acts: seq<Action>, now: int)
    requires 0 < c.threshold && 0 < c.maxProbes
    requires Run(c, INITIAL, past).state.gate == Open
    ensures LastTrip(c, past).Some?
    ensures AskedBefore(acts, LastTrip(c, past).value + c.cooldown) ==>
      var y, z := Run(c, INITIAL, past), Run(c, Run(c, INITIAL, past), acts);
      && z.state.gate == Open && |z.permits| == |y.permits|
      && (Issues(z, Step(c, z, Admission(now))) <==> now >= LastTrip(c, past).value + c.cooldown)
  {
    OpenSinceLastTrip(c, past);
    if AskedBefore(acts, LastTrip(c, past).value + c.cooldown) { StaysOpen(c, past, acts); }
  }

  /** Ready is a faithful preview of an admission at the same clock. */
  lemma ReadyPredictsAllow(c: Config, s: State, now: int)
    ensures Ready(c, s, now) <==> Allow(c, s, now).1
    ensures !Ready(c, s, now) ==> Allow(c, s, now).0 == s
  {
  }

  /** No reachable breaker is stuck: when every permit has been resolved, it admits again as soon as the cooldown of the
      last trip is over. */
  lemma NeverStuck(c: Config, acts: seq<Action>, now: int)
    requires 0 < c.threshold && 0 < c.maxProbes
    requires forall i | 0 <= i < |Run(c, INITIAL, acts).permits| :: Run(c, INITIAL, acts).permits[i].result.Some?
    requires LastTrip(c, acts).Some? ==> now >= LastTrip(c, acts).value + c.cooldown
    ensures Ready(c, Run(c, INITIAL, acts).state, now)
  {
    RunKeepsInv(c, acts);
    OpenSinceLastTrip(c, acts);
    NoUnresolved(Run(c, INITIAL, acts).permits, Run(c, INITIAL, acts).state.generation);
  }

  lemma {:induction false} NoUnresolved(permits: seq<Permit>, generation: nat)
    requires forall i | 0 <= i < |permits| :: permits[i].result.Some?
    ensures Outstanding(permits, generation) == 0
  {
    if permits != [] { NoUnresolved(permits[..|permits| - 1], generation); }
  }
}
