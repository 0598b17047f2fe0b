/** How much a token bucket can grant in a window, for any readings of the clock, backward steps included. */
module RateBound {
  import opened Int64
  import opened TokenBucket

  // ---- a bucket as a level that gains and loses ----

  /** What each request finds: the level after its gain, capped; a granted request leaves the rest. */
  function Levels(capacity: real, level: real, gains: seq<real>, asks: seq<real>): (found: seq<real>)
    requires |gains| == |asks|
    ensures |found| == |asks|
    decreases |asks|
  {
    if asks == [] then []
    else
      var tokens := Min(capacity, level + gains[0]);
      [tokens] + Levels(capacity, Left(tokens, asks[0]), gains[1..], asks[1..])
  }

  /** The tokens taken by the requests that count. */
  function TakenIn(found: seq<real>, asks: seq<real>, ins: seq<bool>): real
    requires |found| == |asks| == |ins|
    decreases |asks|
  {
    if asks == [] then 0.0
    else (if ins[0] then found[0] - Left(found[0], asks[0]) else 0.0) + TakenIn(found[1..], asks[1..], ins[1..])
  }

  function Carry(since: Option<real>, gain: real): Option<real> { if since.None? then None else Some(since.value + gain) }

  /** What can flow back between the requests that count: from each to the next, all gains in between, at most a full
      bucket. The gains since the last one are carried along; before the first there is none. */
  function FlowsBack(capacity: real, since: Option<real>, gains: seq<real>, ins: seq<bool>): real
    requires |gains| == |ins|
    decreases |ins|
  {
    if ins == [] then 0.0
    else
      var now := Carry(since, gains[0]);
      if ins[0] then (if now.Some? then Min(capacity, now.value) else 0.0) + FlowsBack(capacity, Some(0.0), gains[1..], ins[1..])
      else FlowsBack(capacity, now, gains[1..], ins[1..])
  }

  predicate AllAtLeast(xs: seq<real>, lower: real) { forall i | 0 <= i < |xs| :: xs[i] >= lower }

  predicate AllPositive(xs: seq<real>) { forall i | 0 <= i < |xs| :: xs[i] > 0.0 }

  /** No demand takes more than what was left after the last counted request and what flows back. */
  lemma {:induction false} TakenSince(capacity: real, level: real, left: real, x: real, gains: seq<real>, asks: seq<real>, ins: seq<bool>)
    requires |gains| == |asks| == |ins| && AllAtLeast(gains, 0.0) && AllPositive(asks)
    requires 0.0 <= level <= capacity && level <= left + x && 0.0 <= left
    ensures TakenIn(Levels(capacity, level, gains, asks), asks, ins) <= left + FlowsBack(capacity, Some(x), gains, ins)
    decreases |asks|
  {
    if asks != [] {
      var tokens := Min(capacity, level + gains[0]);
      var rest := Left(tokens, asks[0]);
      if ins[0] {
        TakenSince(capacity, rest, rest, 0.0, gains[1..], asks[1..], ins[1..]);
      } else {
        TakenSince(capacity, rest, left, x + gains[0], gains[1..], asks[1..], ins[1..]);
      }
    }
  }

  lemma {:induction false} TakenAtMost(capacity: real, level: real, gains: seq<real>, asks: seq<real>, ins: seq<bool>)
    requires |gains| == |asks| == |ins| && AllAtLeast(gains, 0.0) && AllPositive(asks) && 0.0 <= level <= capacity
    ensures TakenIn(Levels(capacity, level, gains, asks), asks, ins) <= capacity + FlowsBack(capacity, None, gains, ins)
    decreases |asks|
  {
    if asks != [] {
      var tokens := Min(capacity, level + gains[0]);
      var rest := Left(tokens, asks[0]);
      if ins[0] {
        TakenSince(capacity, rest, rest, 0.0, gains[1..], asks[1..], ins[1..]);
      } else {
        TakenAtMost(capacity, rest, gains[1..], asks[1..], ins[1..]);
      }
    }
  }

  /** The demand that takes the most: everything there is at each counted request, nothing at the others. */
  function Draining(capacity: real, level: real, gains: seq<real>, ins: seq<bool>): (asks: seq<real>)
    requires |gains| == |ins|
    ensures |asks| == |ins|
    decreases |ins|
  {
    if ins == [] then []
    else
      var tokens := Min(capacity, level + gains[0]);
      var ask := if ins[0] && tokens > 0.0 then tokens else capacity + 1.0;
      [ask] + Draining(capacity, Left(tokens, ask), gains[1..], ins[1..])
  }

  lemma {:induction false} DrainingIsPositive(capacity: real, level: real, gains: seq<real>, ins: seq<bool>)
    requires |gains| == |ins| && capacity > 0.0
    ensures AllPositive(Draining(capacity, level, gains, ins))
    decreases |ins|
  {
    if ins != [] {
      var tokens := Min(capacity, level + gains[0]);
      var ask := if ins[0] && tokens > 0.0 then tokens else capacity + 1.0;
      DrainingIsPositive(capacity, Left(tokens, ask), gains[1..], ins[1..]);
    }
  }

  lemma {:induction false} DrainingSince(capacity: real, x: real, gains: seq<real>, ins: seq<bool>)
    requires |gains| == |ins| && AllAtLeast(gains, 0.0) && capacity > 0.0 && x >= 0.0
    ensures var level := Min(capacity, x);
      var asks := Draining(capacity, level, gains, ins);
      TakenIn(Levels(capacity, level, gains, asks), asks, ins) == FlowsBack(capacity, Some(x), gains, ins)
    decreases |ins|
  {
    if ins != [] {
      DrainingSince(capacity, if ins[0] then 0.0 else x + gains[0], gains[1..], ins[1..]);
      DrainingStep(capacity, Min(capacity, x), gains, ins);
    }
  }

  lemma {:induction false} DrainingTakesAll(capacity: real, gains: seq<real>, ins: seq<bool>)
    requires |gains| == |ins| && AllAtLeast(gains, 0.0) && capacity > 0.0
    ensures var asks := Draining(capacity, capacity, gains, ins);
      TakenIn(Levels(capacity, capacity, gains, asks), asks, ins)
      == (if true in ins then capacity else 0.0) + FlowsBack(capacity, None, gains, ins)
    decreases |ins|
  {
    if ins != [] {
      DrainingStep(capacity, capacity, gains, ins);
      if ins[0] {
        DrainingSince(capacity, 0.0, gains[1..], ins[1..]);
      } else {
        DrainingTakesAll(capacity, gains[1..], ins[1..]);
        assert true in ins <==> true in ins[1..];
      }
    }
  }

  /** One request of the draining demand. */
  lemma DrainingStep(capacity: real, level: real, gains: seq<real>, ins: seq<bool>)
    requires |gains| == |ins| && ins != [] && AllAtLeast(gains, 0.0) && capacity > 0.0 && 0.0 <= level <= capacity
    ensures var tokens := Min(capacity, level + gains[0]);
      var left := if ins[0] then 0.0 else tokens;
      var asks, later := Draining(capacity, level, gains, ins), Draining(capacity, left, gains[1..], ins[1..]);
      TakenIn(Levels(capacity, level, gains, asks), asks, ins)
      == (if ins[0] then tokens else 0.0) + TakenIn(Levels(capacity, left, gains[1..], later), later, ins[1..])
  {
    var tokens := Min(capacity, level + gains[0]);
    var asks := Draining(capacity, level, gains, ins);
    var found := Levels(capacity, level, gains, asks);
    var left := if ins[0] then 0.0 else tokens;
    assert Left(tokens, asks[0]) == left;
    assert asks[1..] == Draining(capacity, left, gains[1..], ins[1..]);
    assert found[0] == tokens && found[1..] == Levels(capacity, left, gains[1..], asks[1..]);
  }

  // ---- the script as such a bucket ----

  function Times(requests: seq<Request>): (times: seq<real>)
    ensures |times| == |requests|
  {
    if requests == [] then [] else [requests[0].at] + Times(requests[1..])
  }

  function Asks(requests: seq<Request>): (asks: seq<real>)
    ensures |asks| == |requests|
  {
    if requests == [] then [] else [requests[0].requested] + Asks(requests[1..])
  }

  function Arriving(times: seq<real>, asks: seq<real>): (requests: seq<Request>)
    requires |times| == |asks|
    ensures |requests| == |times|
  {
    if times == [] then [] else [Request(times[0], asks[0])] + Arriving(times[1..], asks[1..])
  }

  /** Which arrivals fall in a window. */
  function Inside(times: seq<real>, s: real, t: real): (ins: seq<bool>)
    ensures |ins| == |times|
  {
    if times == [] then [] else [s <= times[0] <= t] + Inside(times[1..], s, t)
  }

  /** The refill each arrival sees since the reading before it; a clock that has gone back refills nothing. */
  function Gains(l: Limits, ts: Option<real>, times: seq<real>): (gains: seq<real>)
    ensures |gains| == |times|
    decreases |times|
  {
    if times == [] then []
    else [GainSince(l, ts, times[0])] + Gains(l, Some(times[0]), times[1..])
  }

  /** The refill between consecutive arrivals of a window over the forward steps of the clock, each at most a full
      bucket. */
  function WindowRefill(l: Limits, times: seq<real>, s: real, t: real): real {
    FlowsBack(l.capacity, None, Gains(l, None, times), Inside(times, s, t))
  }

  lemma {:induction false} GainsAreGains(l: Limits, ts: Option<real>, times: seq<real>)
    requires Positive(l)
    ensures AllAtLeast(Gains(l, ts, times), 0.0)
    decreases |times|
  {
    if times != [] {
      GainsAreGains(l, Some(times[0]), times[1..]);
      if ts.Some? { Product(0.0, Max(0.0, times[0] - ts.value), l.refill); }
    }
  }

  function LevelOf(l: Limits, key: Option<Key>): real { if key.None? then l.capacity else key.value.tokens }

  function StampOf(key: Option<Key>): Option<real> { if key.None? then None else Some(key.value.ts) }

  lemma LevelsCons(capacity: real, level: real, gain: real, gains: seq<real>, ask: real, asks: seq<real>)
    requires |gains| == |asks|
    ensures var tokens := Min(capacity, level + gain);
      Levels(capacity, level, [gain] + gains, [ask] + asks) == [tokens] + Levels(capacity, Left(tokens, ask), gains, asks)
  {
    assert ([gain] + gains)[1..] == gains && ([ask] + asks)[1..] == asks;
  }

  function GainSince(l: Limits, ts: Option<real>, now: real): real {
    if ts.None? then 0.0 else Max(0.0, now - ts.value) * l.refill
  }

  lemma AvailableIsLevel(l: Limits, key: Option<Key>, now: real)
    ensures Available(l, key, now) == Min(l.capacity, LevelOf(l, key) + GainSince(l, StampOf(key), now))
  {
  }

  /** What the script finds are the levels. */
  lemma {:induction false} FoundIsLevels(l: Limits, key: Option<Key>, requests: seq<Request>)
    ensures Found(Worth(l), key, requests) == Levels(l.capacity, LevelOf(l, key), Gains(l, StampOf(key), Times(requests)), Asks(requests))
    decreases |requests|
  {
    if requests != [] {
      var r, tail := requests[0], requests[1..];
      var tokens := Available(l, key, r.at);
      AvailableIsLevel(l, key, r.at);
      FoundIsLevels(l, Some(Key(Left(tokens, r.requested), r.at)), tail);
      assert Times(requests)[1..] == Times(tail);
      LevelsCons(l.capacity, LevelOf(l, key), GainSince(l, StampOf(key), r.at), Gains(l, Some(r.at), Times(tail)), r.requested, Asks(tail));
    }
  }

  lemma {:induction false} TakenIsTakenIn(requests: seq<Request>, found: seq<real>, s: real, t: real)
    requires |requests| == |found|
    ensures Taken(requests, found, s, t) == TakenIn(found, Asks(requests), Inside(Times(requests), s, t))
    decreases |requests|
  {
    if requests != [] {
      TakenIsTakenIn(requests[1..], found[1..], s, t);
      assert Asks(requests)[1..] == Asks(requests[1..]) && Times(requests)[1..] == Times(requests[1..]);
      assert Inside(Times(requests), s, t)[1..] == Inside(Times(requests[1..]), s, t);
    }
  }

  lemma {:induction false} AsksArePositive(requests: seq<Request>)
    requires forall i | 0 <= i < |requests| :: requests[i].requested > 0.0
    ensures AllPositive(Asks(requests))
  {
    if requests != [] { AsksArePositive(requests[1..]); }
  }

  /** What a window grants is what the levels give its arrivals. */
  lemma GrantedIsTakenIn(l: Limits, key: Option<Key>, requests: seq<Request>, s: real, t: real)
    requires Positive(l) && Stored(l, key) && forall i | 0 <= i < |requests| :: requests[i].requested > 0.0
    ensures Granted(requests, Replies(l, key, requests), s, t)
         == TakenIn(Levels(l.capacity, LevelOf(l, key), Gains(l, StampOf(key), Times(requests)), Asks(requests)),
                    Asks(requests), Inside(Times(requests), s, t))
  {
    var found := Found(Worth(l), key, requests);
    ExpiryIsUnobservable(l, key, requests);
    GrantedIsTaken(l, requests, found, s, t);
    FoundIsLevels(l, key, requests);
    TakenIsTakenIn(requests, found, s, t);
  }

  /** The gain of the first arrival does not matter before the window has an arrival. */
  lemma FirstGainIsFree(l: Limits, a: Option<real>, b: Option<real>, times: seq<real>, s: real, t: real)
    ensures FlowsBack(l.capacity, None, Gains(l, a, times), Inside(times, s, t))
         == FlowsBack(l.capacity, None, Gains(l, b, times), Inside(times, s, t))
  {
    if times != [] {
      assert Gains(l, a, times)[1..] == Gains(l, Some(times[0]), times[1..]) == Gains(l, b, times)[1..];
    }
  }

  /** Whatever the clock does and whatever is asked, a window grants at most the capacity and its refill. */
  lemma ClockBound(l: Limits, key: Option<Key>, requests: seq<Request>, s: real, t: real)
    requires Positive(l) && Stored(l, key) && forall i | 0 <= i < |requests| :: requests[i].requested > 0.0
    ensures Granted(requests, Replies(l, key, requests), s, t) <= l.capacity + WindowRefill(l, Times(requests), s, t)
  {
    var times := Times(requests);
    GrantedIsTakenIn(l, key, requests, s, t);
    GainsAreGains(l, StampOf(key), times);
    AsksArePositive(requests);
    TakenAtMost(l.capacity, LevelOf(l, key), Gains(l, StampOf(key), times), Asks(requests), Inside(times, s, t));
    FirstGainIsFree(l, StampOf(key), None, times, s, t);
  }

  lemma {:induction false} ArrivingParts(times: seq<real>, asks: seq<real>)
    requires |times| == |asks|
    ensures Times(Arriving(times, asks)) == times && Asks(Arriving(times, asks)) == asks
    ensures AllPositive(asks) ==> forall i | 0 <= i < |times| :: Arriving(times, asks)[i].requested > 0.0
    decreases |times|
  {
    if times != [] {
      ArrivingParts(times[1..], asks[1..]);
      assert Arriving(times, asks)[1..] == Arriving(times[1..], asks[1..]);
    }
  }

  /** The demand that empties the bucket at each arrival of the window. */
  function WorstAsks(l: Limits, times: seq<real>, s: real, t: real): (asks: seq<real>)
    ensures |asks| == |times|
  {
    Draining(l.capacity, l.capacity, Gains(l, None, times), Inside(times, s, t))
  }

  /** That much is really granted, if the window has an arrival. */
  lemma WorstDemandTakesAll(l: Limits, times: seq<real>, s: real, t: real)
    requires Positive(l) && true in Inside(times, s, t)
    ensures var requests := Arriving(times, WorstAsks(l, times, s, t));
      AllPositive(WorstAsks(l, times, s, t))
      && Granted(requests, Replies(l, None, requests), s, t) == l.capacity + WindowRefill(l, times, s, t)
  {
    var gains, ins, asks := Gains(l, None, times), Inside(times, s, t), WorstAsks(l, times, s, t);
    GainsAreGains(l, None, times);
    DrainingIsPositive(l.capacity, l.capacity, gains, ins);
    ArrivingParts(times, asks);
    GrantedIsTakenIn(l, None, Arriving(times, asks), s, t);
    DrainingTakesAll(l.capacity, gains, ins);
  }

  lemma {:induction false} NoArrivals(capacity: real, since: Option<real>, gains: seq<real>, ins: seq<bool>)
    requires |gains| == |ins| && true !in ins
    ensures FlowsBack(capacity, since, gains, ins) == 0.0
    decreases |ins|
  {
    if ins != [] {
      assert ins[0] in ins;
      NoArrivals(capacity, Carry(since, gains[0]), gains[1..], ins[1..]);
    }
  }

  /** The window grants this demand no more than a full bucket and an allowance. */
  ghost predicate GrantsWithin(l: Limits, times: seq<real>, asks: seq<real>, s: real, t: real, allowance: real)
    requires Positive(l) && |times| == |asks|
  {
    var requests := Arriving(times, asks);
    Granted(requests, Replies(l, None, requests), s, t) <= l.capacity + allowance
  }

  lemma EveryDemandWithin(l: Limits, times: seq<real>, asks: seq<real>, s: real, t: real, allowance: real)
    requires Positive(l) && |asks| == |times| && AllPositive(asks) && WindowRefill(l, times, s, t) <= allowance
    ensures GrantsWithin(l, times, asks, s, t, allowance)
  {
    ArrivingParts(times, asks);
    ClockBound(l, None, Arriving(times, asks), s, t);
  }

  lemma WorstDemandExceeds(l: Limits, times: seq<real>, s: real, t: real, allowance: real)
    requires Positive(l) && WindowRefill(l, times, s, t) > allowance >= 0.0
    ensures AllPositive(WorstAsks(l, times, s, t)) && !GrantsWithin(l, times, WorstAsks(l, times, s, t), s, t, allowance)
  {
    if true !in Inside(times, s, t) {
      NoArrivals(l.capacity, None, Gains(l, None, times), Inside(times, s, t));
    } else {
      WorstDemandTakesAll(l, times, s, t);
    }
  }

  lemma AllowanceIff(l: Limits, times: seq<real>, s: real, t: real, allowance: real)
    requires Positive(l) && allowance >= 0.0
    ensures (forall asks | |asks| == |times| && AllPositive(asks) :: GrantsWithin(l, times, asks, s, t, allowance))
      <==> WindowRefill(l, times, s, t) <= allowance
  {
    if WindowRefill(l, times, s, t) <= allowance {
      forall asks | |asks| == |times| && AllPositive(asks) ensures GrantsWithin(l, times, asks, s, t, allowance) {
        EveryDemandWithin(l, times, asks, s, t, allowance);
      }
    } else {
      WorstDemandExceeds(l, times, s, t, allowance);
    }
  }

  /** For given readings of the clock at the arrivals, in any order, every demand keeps the bound of a window if and only
      if the refill between the arrivals of the window is at most the refill of the window. */
  lemma WindowBoundIff(l: Limits, times: seq<real>, s: real, t: real)
    requires Positive(l) && s <= t
    ensures (forall asks | |asks| == |times| && AllPositive(asks) :: GrantsWithin(l, times, asks, s, t, l.refill * (t - s)))
      <==> WindowRefill(l, times, s, t) <= l.refill * (t - s)
  {
    Product(0.0, t - s, l.refill);
    AllowanceIff(l, times, s, t, l.refill * (t - s));
  }

  // ---- a clock that does not go back ----

  /** Readings of a clock in a measure in which it refills one token at a time, with the gains between them. */
  predicate Paced(before: real, clock: seq<real>, gains: seq<real>)
    requires |clock| == |gains|
    decreases |clock|
  {
    clock != [] ==> before <= clock[0] && gains[0] == clock[0] - before && Paced(clock[0], clock[1..], gains[1..])
  }

  predicate InWindow(clock: seq<real>, ins: seq<bool>, s: real, t: real)
    requires |clock| == |ins|
    decreases |clock|
  {
    clock != [] ==> (ins[0] ==> s <= clock[0] <= t) && InWindow(clock[1..], ins[1..], s, t)
  }

  lemma {:induction false} NoneInside(clock: seq<real>, ins: seq<bool>, s: real, t: real)
    requires |clock| == |ins| && InWindow(clock, ins, s, t) && forall i | 0 <= i < |clock| :: clock[i] > t
    ensures true !in ins
    decreases |clock|
  {
    if clock != [] { NoneInside(clock[1..], ins[1..], s, t); }
  }

  lemma {:induction false} PacedAscends(before: real, clock: seq<real>, gains: seq<real>)
    requires |clock| == |gains| && Paced(before, clock, gains)
    ensures AllAtLeast(clock, before)
    decreases |clock|
  {
    if clock != [] { PacedAscends(clock[0], clock[1..], gains[1..]); }
  }

  lemma {:induction false} FlowsSince(capacity: real, x: real, before: real, clock: seq<real>, gains: seq<real>, ins: seq<bool>, s: real, t: real)
    requires |clock| == |gains| == |ins| && Paced(before, clock, gains) && InWindow(clock, ins, s, t) && before <= t && x >= 0.0
    ensures FlowsBack(capacity, Some(x), gains, ins) <= x + (t - before)
    decreases |clock|
  {
    if clock != [] {
      if clock[0] <= t {
        FlowsSince(capacity, if ins[0] then 0.0 else x + gains[0], clock[0], clock[1..], gains[1..], ins[1..], s, t);
      } else {
        PacedAscends(clock[0], clock[1..], gains[1..]);
        NoneInside(clock, ins, s, t);
        NoArrivals(capacity, Some(x), gains, ins);
      }
    }
  }

  lemma {:induction false} FlowsWithin(capacity: real, before: real, clock: seq<real>, gains: seq<real>, ins: seq<bool>, s: real, t: real)
    requires |clock| == |gains| == |ins| && Paced(before, clock, gains) && InWindow(clock, ins, s, t) && s <= t
    ensures FlowsBack(capacity, None, gains, ins) <= t - s
    decreases |clock|
  {
    if clock != [] {
      if ins[0] {
        FlowsSince(capacity, 0.0, clock[0], clock[1..], gains[1..], ins[1..], s, t);
      } else {
        FlowsWithin(capacity, clock[0], clock[1..], gains[1..], ins[1..], s, t);
      }
    }
  }

  predicate Forward(from: real, times: seq<real>)
    decreases |times|
  {
    times != [] ==> from <= times[0] && Forward(times[0], times[1..])
  }

  function Scaled(refill: real, times: seq<real>): (clock: seq<real>)
    ensures |clock| == |times|
  {
    if times == [] then [] else [refill * times[0]] + Scaled(refill, times[1..])
  }

  lemma SameOrder(refill: real, x: real, y: real)
    requires refill > 0.0
    ensures x <= y <==> refill * x <= refill * y
  {
    if x > y { Product(y, x, refill); }
  }

  lemma ForwardGain(refill: real, x: real, y: real)
    requires refill > 0.0 && x <= y
    ensures refill * x <= refill * y && Max(0.0, y - x) * refill == refill * y - refill * x
  {
    SameOrder(refill, x, y);
    Distribute(y, -x, refill);
  }

  lemma PacedCons(before: real, reading: real, clock: seq<real>, gain: real, gains: seq<real>)
    requires |clock| == |gains| && before <= reading && gain == reading - before && Paced(reading, clock, gains)
    ensures Paced(before, [reading] + clock, [gain] + gains)
  {
    assert ([reading] + clock)[1..] == clock && ([gain] + gains)[1..] == gains;
  }

  lemma {:induction false} ForwardIsPaced(l: Limits, from: real, times: seq<real>)
    requires Positive(l) && Forward(from, times)
    ensures Paced(l.refill * from, Scaled(l.refill, times), Gains(l, Some(from), times))
    decreases |times|
  {
    if times != [] {
      ForwardIsPaced(l, times[0], times[1..]);
      ForwardGain(l.refill, from, times[0]);
      PacedCons(l.refill * from, l.refill * times[0], Scaled(l.refill, times[1..]), Max(0.0, times[0] - from) * l.refill,
                Gains(l, Some(times[0]), times[1..]));
    }
  }

  lemma WindowCons(reading: real, clock: seq<real>, inside: bool, ins: seq<bool>, s: real, t: real)
    requires |clock| == |ins| && (inside ==> s <= reading <= t) && InWindow(clock, ins, s, t)
    ensures InWindow([reading] + clock, [inside] + ins, s, t)
  {
    assert ([reading] + clock)[1..] == clock && ([inside] + ins)[1..] == ins;
  }

  lemma {:induction false} ScaledWindow(refill: real, times: seq<real>, s: real, t: real)
    requires refill > 0.0
    ensures InWindow(Scaled(refill, times), Inside(times, s, t), refill * s, refill * t)
  {
    if times != [] {
      ScaledWindow(refill, times[1..], s, t);
      SameOrder(refill, s, times[0]);
      SameOrder(refill, times[0], t);
      WindowCons(refill * times[0], Scaled(refill, times[1..]), s <= times[0] <= t, Inside(times[1..], s, t), refill * s, refill * t);
    }
  }

  lemma PacedRefill(l: Limits, times: seq<real>, s: real, t: real, clock: seq<real>, before: real, low: real, high: real)
    requires times != [] && |clock| == |times| && Paced(before, clock, Gains(l, Some(times[0]), times))
    requires InWindow(clock, Inside(times, s, t), low, high) && low <= high
    ensures WindowRefill(l, times, s, t) <= high - low
  {
    FlowsWithin(l.capacity, before, clock, Gains(l, Some(times[0]), times), Inside(times, s, t), low, high);
    FirstGainIsFree(l, Some(times[0]), None, times, s, t);
  }

  lemma TokensOf(refill: real, x: real) returns (u: real)
    ensures u == refill * x
  {
    u := refill * x;
  }

  /** Times counted in the tokens they refill, as numbers of their own. */
  lemma InTokens(l: Limits, times: seq<real>, s: real, t: real)
    returns (clock: seq<real>, before: real, low: real, high: real)
    requires Positive(l) && times != [] && Forward(times[0], times) && s <= t
    ensures |clock| == |times| && Paced(before, clock, Gains(l, Some(times[0]), times))
    ensures InWindow(clock, Inside(times, s, t), low, high) && low <= high == low + l.refill * (t - s)
  {
    clock := PacedClock(l, times);
    before := TokensOf(l.refill, times[0]);
    low := TokensOf(l.refill, s);
    high := TokensOf(l.refill, t);
    WindowOf(l.refill, times, clock, s, t, low, high);
    PacedOf(l, times, clock, before);
    ForwardGain(l.refill, s, t);
    Distribute(t, -s, l.refill);
  }

  lemma PacedClock(l: Limits, times: seq<real>) returns (clock: seq<real>)
    ensures clock == Scaled(l.refill, times)
  {
    clock := Scaled(l.refill, times);
  }

  lemma WindowOf(refill: real, times: seq<real>, clock: seq<real>, s: real, t: real, low: real, high: real)
    requires refill > 0.0 && clock == Scaled(refill, times) && low == refill * s && high == refill * t
    ensures InWindow(clock, Inside(times, s, t), low, high)
  {
    ScaledWindow(refill, times, s, t);
  }

  lemma PacedOf(l: Limits, times: seq<real>, clock: seq<real>, before: real)
    requires Positive(l) && times != [] && Forward(times[0], times)
    requires clock == Scaled(l.refill, times) && before == l.refill * times[0]
    ensures Paced(before, clock, Gains(l, Some(times[0]), times))
  {
    ForwardIsPaced(l, times[0], times);
  }

  /** A clock that does not go back meets the condition in every window. */
  lemma ForwardClockKeepsTheBound(l: Limits, times: seq<real>, s: real, t: real)
    requires Positive(l) && (times != [] ==> Forward(times[0], times)) && s <= t
    ensures WindowRefill(l, times, s, t) <= l.refill * (t - s)
  {
    if times == [] {
      Product(0.0, t - s, l.refill);
    } else {
      var clock, before, low, high := InTokens(l, times, s, t);
      PacedRefill(l, times, s, t, clock, before, low, high);
    }
  }

  /** So in every window of every run whose clock does not go back, no more is granted than the capacity and the refill
      of the window. */
  lemma WindowBound(l: Limits, key: Option<Key>, requests: seq<Request>, s: real, t: real)
    requires Positive(l) && Stored(l, key) && forall i | 0 <= i < |requests| :: requests[i].requested > 0.0
    requires requests != [] ==> Forward(requests[0].at, Times(requests))
    requires s <= t
    ensures Granted(requests, Replies(l, key, requests), s, t) <= l.capacity + l.refill * (t - s)
  {
    ClockBound(l, key, requests, s, t);
    ForwardClockKeepsTheBound(l, Times(requests), s, t);
  }

  /** With a limit of n a minute and a clock that does not go back, no minute sees more than twice n granted. */
  lemma MinuteBound(n: nat, key: Option<Key>, requests: seq<Request>, s: real)
    requires n > 0 && Stored(PerMinute(n), key) && forall i | 0 <= i < |requests| :: requests[i].requested > 0.0
    requires requests != [] ==> Forward(requests[0].at, Times(requests))
    ensures Granted(requests, Replies(PerMinute(n), key, requests), s, s + 60.0) <= 2.0 * n as real
  {
    var l := PerMinute(n);
    WindowBound(l, key, requests, s, s + 60.0);
    assert s + 60.0 - s == 60.0 && l.refill * 60.0 == n as real;
  }

  // ---- two clocks that go back ----

  lemma InsideCons(reading: real, times: seq<real>, s: real, t: real)
    ensures Inside([reading] + times, s, t) == [s <= reading <= t] + Inside(times, s, t)
  {
    assert ([reading] + times)[1..] == times;
  }

  lemma GainsCons(l: Limits, ts: Option<real>, reading: real, times: seq<real>)
    ensures Gains(l, ts, [reading] + times) == [GainSince(l, ts, reading)] + Gains(l, Some(reading), times)
  {
    assert ([reading] + times)[1..] == times;
  }

  lemma FlowsCons(capacity: real, since: Option<real>, gain: real, gains: seq<real>, inside: bool, ins: seq<bool>)
    requires |gains| == |ins|
    ensures var now := Carry(since, gain);
      FlowsBack(capacity, since, [gain] + gains, [inside] + ins)
      == if inside then (if now.Some? then Min(capacity, now.value) else 0.0) + FlowsBack(capacity, Some(0.0), gains, ins)
         else FlowsBack(capacity, now, gains, ins)
  {
    assert ([gain] + gains)[1..] == gains && ([inside] + ins)[1..] == ins;
  }

  /** A step back and forward again refills the time between twice. */
  lemma RepeatedTimeRefillsTwice()
    ensures var l := Limits(1.0, 1.0);
      WindowRefill(l, [10.0] + ([0.0] + ([10.0] + [])), 10.0, 10.0) == 1.0
      && exists asks | |asks| == 3 && AllPositive(asks) :: !GrantsWithin(l, [10.0] + ([0.0] + ([10.0] + [])), asks, 10.0, 10.0, 0.0)
  {
    var l := Limits(1.0, 1.0);
    var times := [10.0] + ([0.0] + ([10.0] + []));
    InsideCons(10.0, [0.0] + ([10.0] + []), 10.0, 10.0);
    InsideCons(0.0, [10.0] + [], 10.0, 10.0);
    InsideCons(10.0, [], 10.0, 10.0);
    GainsCons(l, None, 10.0, [0.0] + ([10.0] + []));
    GainsCons(l, Some(10.0), 0.0, [10.0] + []);
    GainsCons(l, Some(0.0), 10.0, []);
    FlowsCons(1.0, None, 0.0, [0.0] + ([10.0] + []), true, [false] + ([true] + []));
    FlowsCons(1.0, Some(0.0), 0.0, [10.0] + [], false, [true] + []);
    FlowsCons(1.0, Some(0.0), 10.0, [], true, []);
    WorstDemandExceeds(l, times, 10.0, 10.0, 0.0);
  }

  /** A step back that no step forward follows refills nothing, so every window keeps its bound. */
  lemma StepBackAloneIsHarmless(l: Limits, later: real, earlier: real, s: real, t: real)
    requires Positive(l) && earlier < later
    ensures WindowRefill(l, [later] + ([earlier] + []), s, t) == 0.0
  {
    InsideCons(later, [earlier] + [], s, t);
    InsideCons(earlier, [], s, t);
    GainsCons(l, None, later, [earlier] + []);
    GainsCons(l, Some(later), earlier, []);
    FlowsCons(l.capacity, None, 0.0, [0.0] + [], s <= later <= t, [s <= earlier <= t] + []);
    FlowsCons(l.capacity, Some(0.0), 0.0, [], s <= earlier <= t, []);
    FlowsCons(l.capacity, None, 0.0, [], s <= earlier <= t, []);
  }
}
