/** Candidate order: descending priority, and inside one priority a weighted random permutation. */
module Ordering {

  datatype Channel = Channel(id: string, format: string, models: map<string, string>, priority: int, weight: int, enabled: bool)

  function Weight(c: Channel): int { if c.weight <= 0 then 1 else c.weight }

  function TotalWeight(pool: seq<Channel>): int {
    if pool == [] then 0 else TotalWeight(pool[..|pool| - 1]) + Weight(pool[|pool| - 1])
  }

  lemma {:induction false} TotalWeightGrows(pool: seq<Channel>, i: nat)
    requires i <= |pool|
    ensures 0 <= TotalWeight(pool[..i]) <= TotalWeight(pool)
    ensures i < |pool| ==> TotalWeight(pool[..i]) < TotalWeight(pool[..i + 1]) <= TotalWeight(pool)
    decreases |pool|
  {
    if i == |pool| {
      assert pool[..i] == pool;
      if pool != [] {
        TotalWeightGrows(pool[..|pool| - 1], |pool| - 1);
        assert pool[..|pool| - 1][..|pool| - 1] == pool[..|pool| - 1];
      }
    } else {
      TotalWeightGrows(pool[..|pool| - 1], i);
      assert pool[..|pool| - 1][..i] == pool[..i];
      assert pool[..i + 1][..i] == pool[..i];
      if i + 1 < |pool| {
        assert pool[..|pool| - 1][..i + 1] == pool[..i + 1];
      } else {
        assert pool[..i + 1] == pool;
      }
    }
  }

  /** The interval of draws that belongs to one channel. */
  ghost predicate Hits(pool: seq<Channel>, draw: int, i: nat)
    requires i < |pool|
  {
    TotalWeight(pool[..i]) <= draw < TotalWeight(pool[..i + 1])
  }

  /** Finds the channel whose interval holds the draw. */
  method PickIndex(pool: array<Channel>, size: nat, draw: int) returns (idx: nat)
    requires size <= pool.Length && 0 <= draw < TotalWeight(pool[..size])
    ensures idx < size && Hits(pool[..size], draw, idx)
  {
    var acc := 0;
    var i := 0;
    idx := 0;
    while i < size
      invariant i <= size && acc == TotalWeight(pool[..i]) <= draw
    {
      acc := acc + Weight(pool[i]);
      assert pool[..i + 1][..i] == pool[..i];
      if draw < acc {
        assert pool[..size][..i] == pool[..i] && pool[..size][..i + 1] == pool[..i + 1];
        return i;
      }
      i := i + 1;
    }
  }

  lemma IntervalsDisjoint(pool: seq<Channel>, i: nat, j: nat)
    requires i < j < |pool|
    ensures TotalWeight(pool[..i + 1]) <= TotalWeight(pool[..j])
  {
    TotalWeightGrows(pool[..j], i + 1);
    assert pool[..j][..i + 1] == pool[..i + 1];
  }

  ghost function DrawsHitting(pool: seq<Channel>, i: nat, draws: nat): nat
    requires i < |pool|
  {
    if draws == 0 then 0 else DrawsHitting(pool, i, draws - 1) + if Hits(pool, draws - 1, i) then 1 else 0
  }

  lemma {:induction false} DrawsInInterval(pool: seq<Channel>, i: nat, draws: nat)
    requires i < |pool|
    ensures var lo, hi := TotalWeight(pool[..i]), TotalWeight(pool[..i + 1]);
      DrawsHitting(pool, i, draws) == if draws <= lo then 0 else if draws <= hi then draws - lo else hi - lo
  {
    TotalWeightGrows(pool, i);
    if draws > 0 { DrawsInInterval(pool, i, draws - 1); }
  }

  /** Of the draws in [0, total), a channel is picked by as many as its weight says, an unset weight counting as one. */
  lemma DrawsAreProportional(pool: seq<Channel>, i: nat)
    requires i < |pool|
    ensures 0 <= TotalWeight(pool)
    ensures DrawsHitting(pool, i, TotalWeight(pool)) == if pool[i].weight > 0 then pool[i].weight else 1
  {
    assert pool[..i + 1][..i] == pool[..i];
    TotalWeightGrows(pool, i);
    DrawsInInterval(pool, i, TotalWeight(pool));
  }

  lemma OneChannelPerDraw(pool: seq<Channel>, i: nat, j: nat, draw: int)
    requires i < |pool| && j < |pool| && Hits(pool, draw, i) && Hits(pool, draw, j)
    ensures i == j
  {
    if i < j { IntervalsDisjoint(pool, i, j); }
    if j < i { IntervalsDisjoint(pool, j, i); }
  }

  method SumWeights(pool: array<Channel>, size: nat) returns (total: int)
    requires size <= pool.Length
    ensures total == TotalWeight(pool[..size])
  {
    total := 0;
    for i := 0 to size
      invariant total == TotalWeight(pool[..i])
    {
      assert pool[..i + 1][..i] == pool[..i];
      total := total + Weight(pool[i]);
    }
  }

  /** Without one channel: the last one moves into its place. */
  function Without(pool: seq<Channel>, idx: nat): seq<Channel>
    requires idx < |pool|
  {
    pool[idx := pool[|pool| - 1]][..|pool| - 1]
  }

  method SwapRemove(pool: array<Channel>, size: nat, idx: nat)
    requires idx < size <= pool.Length
    modifies pool
    ensures pool[..size - 1] == Without(old(pool[..size]), idx)
  {
    pool[idx] := pool[size - 1];
  }

  lemma SwapRemoved(pool: seq<Channel>, idx: nat)
    requires idx < |pool|
    ensures multiset(pool) == multiset{pool[idx]} + multiset(Without(pool, idx))
  {
    var last := |pool| - 1;
    var after := Without(pool, idx);
    assert pool == pool[..last] + [pool[last]];
    if idx < last {
      assert pool[..last] == pool[..idx] + [pool[idx]] + pool[idx + 1..last];
      assert after == pool[..idx] + [pool[last]] + pool[idx + 1..last];
    } else {
      assert after == pool[..last];
    }
  }

  /** The random source: the k-th number drawn when there are n to choose from. */
  type Source = (nat, int) -> int

  ghost predicate Fair(rng: Source) { forall k: nat, n: int | n > 0 :: 0 <= rng(k, n) < n }

  /** The channels left after some picks. */
  function Remaining(pool: seq<Channel>, picks: seq<nat>): seq<Channel>
    decreases |picks|
  {
    if picks == [] then pool
    else
      var left, idx := Remaining(pool, picks[..|picks| - 1]), picks[|picks| - 1];
      if idx < |left| then Without(left, idx) else left
  }

  /** The i-th channel is the one picked among those left. */
  ghost predicate PickedAt(pool: seq<Channel>, picks: seq<nat>, out: seq<Channel>, i: nat)
    requires i < |picks| == |out|
  {
    var left := Remaining(pool, picks[..i]);
    picks[i] < |left| && out[i] == left[picks[i]]
  }

  /** And its interval, among those left, holds the draw made for it. */
  ghost predicate DrawnAt(pool: seq<Channel>, picks: seq<nat>, rng: Source, k: nat, i: nat)
    requires i < |picks|
  {
    var left := Remaining(pool, picks[..i]);
    picks[i] < |left| && Hits(left, rng(k + i, TotalWeight(left)), picks[i])
  }

  ghost predicate Picked(pool: seq<Channel>, picks: seq<nat>, out: seq<Channel>) {
    |out| == |picks| && forall i | 0 <= i < |picks| :: PickedAt(pool, picks, out, i)
  }

  /** Weighted sampling without replacement; a single channel is not drawn for. */
  ghost predicate Sampled(pool: seq<Channel>, picks: seq<nat>, out: seq<Channel>, rng: Source, k: nat) {
    if |pool| <= 1 then out == pool
    else |picks| == |pool| && Picked(pool, picks, out) && forall i | 0 <= i < |picks| :: DrawnAt(pool, picks, rng, k, i)
  }

  lemma PickedFront(pool: seq<Channel>, picks: seq<nat>, out: seq<Channel>)
    requires Picked(pool, picks, out) && picks != []
    ensures Picked(pool, picks[..|picks| - 1], out[..|picks| - 1]) && PickedAt(pool, picks, out, |picks| - 1)
  {
    var n := |picks| - 1;
    forall i | 0 <= i < n ensures PickedAt(pool, picks[..n], out[..n], i) {
      assert PickedAt(pool, picks, out, i) && picks[..n][..i] == picks[..i];
    }
  }

  lemma {:induction false} PickedIsPermutation(pool: seq<Channel>, picks: seq<nat>, out: seq<Channel>)
    requires Picked(pool, picks, out)
    ensures multiset(pool) == multiset(out) + multiset(Remaining(pool, picks))
    ensures |picks| <= |pool| && |Remaining(pool, picks)| == |pool| - |picks|
    decreases |picks|
  {
    if picks != [] {
      var n := |picks| - 1;
      PickedFront(pool, picks, out);
      PickedIsPermutation(pool, picks[..n], out[..n]);
      SwapRemoved(Remaining(pool, picks[..n]), picks[n]);
      assert out == out[..n] + [out[n]];
    }
  }

  lemma PickOne(pool: seq<Channel>, picks: seq<nat>, out: seq<Channel>, rng: Source, k: nat, idx: nat)
    requires Picked(pool, picks, out) && forall i | 0 <= i < |picks| :: DrawnAt(pool, picks, rng, k, i)
    requires var left := Remaining(pool, picks); idx < |left| && Hits(left, rng(k + |picks|, TotalWeight(left)), idx)
    ensures Picked(pool, picks + [idx], out + [Remaining(pool, picks)[idx]])
    ensures forall i | 0 <= i <= |picks| :: DrawnAt(pool, picks + [idx], rng, k, i)
    ensures Remaining(pool, picks + [idx]) == Without(Remaining(pool, picks), idx)
  {
    var ps, os := picks + [idx], out + [Remaining(pool, picks)[idx]];
    assert ps[..|picks|] == picks;
    forall i | 0 <= i < |ps| ensures PickedAt(pool, ps, os, i) && DrawnAt(pool, ps, rng, k, i) {
      if i < |picks| { assert ps[..i] == picks[..i] && PickedAt(pool, picks, out, i) && DrawnAt(pool, picks, rng, k, i); }
    }
  }

  lemma SampledIsPermutation(pool: seq<Channel>, picks: seq<nat>, out: seq<Channel>, rng: Source, k: nat)
    requires Sampled(pool, picks, out, rng, k)
    ensures multiset(out) == multiset(pool)
  {
    if |pool| > 1 { PickedIsPermutation(pool, picks, out); }
  }

  /** The sampling itself, with a swap-remove on a private copy; it uses up one draw a channel, none for a single one. */
  method WeightedShuffle(channels: seq<Channel>, rng: Source, k: nat) returns (out: seq<Channel>, next: nat, ghost picks: seq<nat>)
    requires Fair(rng)
    ensures Sampled(channels, picks, out, rng, k)
    ensures next == k + if |channels| <= 1 then 0 else |channels|
  {
    var n := |channels|;
    if n <= 1 { return channels, k, []; }
    var pool := new Channel[n](i requires 0 <= i < n => channels[i]);
    var size := n;
    out, next, picks := [], k, [];
    assert pool[..size] == channels;
    while size > 0
      invariant size <= pool.Length && next == k + |picks| == k + n - size
      invariant Picked(channels, picks, out) && pool[..size] == Remaining(channels, picks)
      invariant forall i | 0 <= i < |picks| :: DrawnAt(channels, picks, rng, k, i)
    {
      var total := SumWeights(pool, size);
      TotalWeightGrows(pool[..size], 0);
      var idx := PickIndex(pool, size, rng(next, total));
      PickOne(channels, picks, out, rng, k, idx);
      out, picks := out + [pool[idx]], picks + [idx];
      SwapRemove(pool, size, idx);
      size := size - 1;
      next := next + 1;
    }
  }

  // ---- grouping by priority ----

  function WithPriority(channels: seq<Channel>, p: int): seq<Channel> {
    if channels == [] then []
    else
      var last := channels[|channels| - 1];
      WithPriority(channels[..|channels| - 1], p) + if last.priority == p then [last] else []
  }

  lemma {:induction false} GroupCounts(channels: seq<Channel>, p: int, x: Channel)
    ensures multiset(WithPriority(channels, p))[x] == if x.priority == p then multiset(channels)[x] else 0
  {
    if channels != [] {
      var n := |channels| - 1;
      GroupCounts(channels[..n], p, x);
      assert channels == channels[..n] + [channels[n]];
    }
  }

  ghost predicate Descending(ps: seq<int>) { forall i, j | 0 <= i < j < |ps| :: ps[i] > ps[j] }

  /** The library sort, reversed, on the distinct priorities. */
  function Insert(p: int, ps: seq<int>): seq<int> {
    if ps == [] || p > ps[0] then [p] + ps else [ps[0]] + Insert(p, ps[1..])
  }

  lemma {:induction false} InsertSorts(p: int, ps: seq<int>)
    requires Descending(ps) && p !in ps
    ensures Descending(Insert(p, ps)) && forall q :: q in Insert(p, ps) <==> q == p || q in ps
  {
    if ps != [] && p <= ps[0] {
      var rest := Insert(p, ps[1..]);
      InsertSorts(p, ps[1..]);
      assert ps == [ps[0]] + ps[1..];
      assert p in ps ==> false;
      forall i | 0 <= i < |rest| ensures rest[i] < ps[0] {
        assert rest[i] in rest;
        if rest[i] != p {
          var j :| 0 <= j < |ps[1..]| && ps[1..][j] == rest[i];
          assert ps[0] > ps[j + 1];
        }
      }
    }
  }

  method SortDescending(priorities: seq<int>) returns (sorted: seq<int>)
    requires Distinct(priorities)
    ensures Descending(sorted) && forall p :: p in sorted <==> p in priorities
  {
    sorted := [];
    for i := 0 to |priorities|
      invariant Descending(sorted) && forall p :: p in sorted <==> p in priorities[..i]
    {
      assert priorities[i] !in priorities[..i];
      InsertSorts(priorities[i], sorted);
      sorted := Insert(priorities[i], sorted);
      assert priorities[..i + 1] == priorities[..i] + [priorities[i]];
    }
    assert priorities[..|priorities|] == priorities;
  }

  ghost predicate PriorityOrder(channels: seq<Channel>) {
    forall i, j | 0 <= i < j < |channels| :: channels[i].priority >= channels[j].priority
  }

  function Group(groups: map<int, seq<Channel>>, p: int): seq<Channel> { if p in groups then groups[p] else [] }

  ghost predicate Grouped(groups: map<int, seq<Channel>>, channels: seq<Channel>) {
    forall p :: Group(groups, p) == WithPriority(channels, p)
  }

  lemma GroupedSnoc(groups: map<int, seq<Channel>>, channels: seq<Channel>, c: Channel)
    requires Grouped(groups, channels)
    ensures Grouped(groups[c.priority := Group(groups, c.priority) + [c]], channels + [c])
  {
    assert (channels + [c])[..|channels|] == channels;
    forall p ensures Group(groups[c.priority := Group(groups, c.priority) + [c]], p) == WithPriority(channels + [c], p) {
      assert Group(groups, p) == WithPriority(channels, p);
    }
  }

  ghost predicate Distinct(ps: seq<int>) { forall i, j | 0 <= i < j < |ps| :: ps[i] != ps[j] }

  ghost predicate Listed(groups: map<int, seq<Channel>>, priorities: seq<int>) {
    Distinct(priorities) && forall p :: p in groups <==> p in priorities
  }

  lemma ListedStep(groups: map<int, seq<Channel>>, priorities: seq<int>, p: int, group: seq<Channel>)
    requires Listed(groups, priorities)
    ensures Listed(groups[p := group], if p in groups then priorities else priorities + [p])
  {
  }

  lemma EveryPriorityHasAGroup(groups: map<int, seq<Channel>>, channels: seq<Channel>, x: Channel)
    requires Grouped(groups, channels) && x in channels
    ensures x.priority in groups
  {
    GroupCounts(channels, x.priority, x);
    assert Group(groups, x.priority) == WithPriority(channels, x.priority);
  }

  method GroupByPriority(channels: seq<Channel>) returns (groups: map<int, seq<Channel>>, priorities: seq<int>)
    ensures Grouped(groups, channels) && Listed(groups, priorities)
  {
    groups, priorities := map[], [];
    for i := 0 to |channels|
      invariant Grouped(groups, channels[..i]) && Listed(groups, priorities)
    {
      var c := channels[i];
      GroupedSnoc(groups, channels[..i], c);
      ListedStep(groups, priorities, c.priority, Group(groups, c.priority) + [c]);
      assert channels[..i + 1] == channels[..i] + [c];
      if c.priority !in groups {
        priorities := priorities + [c.priority];
      }
      groups := groups[c.priority := Group(groups, c.priority) + [c]];
    }
    assert channels[..|channels|] == channels;
  }

  /** The channels of the given priorities, each as often as in the input, and no others. */
  ghost predicate Taken(out: seq<Channel>, channels: seq<Channel>, ps: seq<int>) {
    forall x: Channel :: multiset(out)[x] == if x.priority in ps then multiset(channels)[x] else 0
  }

  lemma {:induction false} PriorityAcross(a: seq<Channel>, b: seq<Channel>, p: int)
    ensures WithPriority(a + b, p) == WithPriority(a, p) + WithPriority(b, p)
    decreases |b|
  {
    if b == [] {
      assert a + b == a;
    } else {
      assert (a + b)[..|a + b| - 1] == a + b[..|b| - 1];
      PriorityAcross(a, b[..|b| - 1], p);
    }
  }

  lemma {:induction false} OnePriority(channels: seq<Channel>, p: int, q: int)
    requires forall i | 0 <= i < |channels| :: channels[i].priority == p
    ensures WithPriority(channels, q) == if p == q then channels else []
  {
    if channels != [] { OnePriority(channels[..|channels| - 1], p, q); }
  }

  lemma {:induction false} NoPriority(channels: seq<Channel>, q: int)
    requires forall i | 0 <= i < |channels| :: channels[i].priority != q
    ensures WithPriority(channels, q) == []
  {
    if channels != [] { NoPriority(channels[..|channels| - 1], q); }
  }

  /** Inside one priority the order is a weighted sampling of the channels as they come in the input. */
  ghost predicate GroupSampled(channels: seq<Channel>, out: seq<Channel>, rng: Source, p: int) {
    exists k: nat, picks: seq<nat> :: Sampled(WithPriority(channels, p), picks, WithPriority(out, p), rng, k)
  }

  ghost predicate IsOrder(channels: seq<Channel>, out: seq<Channel>, rng: Source) {
    && multiset(out) == multiset(channels) && PriorityOrder(out)
    && forall p :: GroupSampled(channels, out, rng, p)
  }

  /** What one more shuffled group adds to the sampled ones. */
  lemma SampledStep(channels: seq<Channel>, out: seq<Channel>, ps: seq<int>, p: int, group: seq<Channel>, rng: Source)
    requires Taken(out, channels, ps) && p !in ps && multiset(group) == multiset(WithPriority(channels, p))
    requires exists k: nat, picks: seq<nat> :: Sampled(WithPriority(channels, p), picks, group, rng, k)
    requires forall q | q in ps :: GroupSampled(channels, out, rng, q)
    ensures forall q | q in ps + [p] :: GroupSampled(channels, out + group, rng, q)
  {
    forall i | 0 <= i < |group| ensures group[i].priority == p {
      assert multiset(group)[group[i]] > 0;
      GroupCounts(channels, p, group[i]);
    }
    forall i | 0 <= i < |out| ensures out[i].priority in ps { assert multiset(out)[out[i]] > 0; }
    forall q | q in ps + [p] ensures GroupSampled(channels, out + group, rng, q) {
      PriorityAcross(out, group, q);
      OnePriority(group, p, q);
      if q == p {
        NoPriority(out, q);
        assert WithPriority(out + group, q) == group;
      } else {
        assert GroupSampled(channels, out, rng, q);
        assert WithPriority(out, q) + [] == WithPriority(out, q);
      }
    }
  }

  lemma TakenStep(out: seq<Channel>, channels: seq<Channel>, ps: seq<int>, p: int, group: seq<Channel>)
    requires Taken(out, channels, ps) && p !in ps && multiset(group) == multiset(WithPriority(channels, p))
    requires PriorityOrder(out) && forall q | q in ps :: q > p
    ensures Taken(out + group, channels, ps + [p]) && PriorityOrder(out + group)
  {
    forall x: Channel ensures multiset(out + group)[x] == if x.priority in ps + [p] then multiset(channels)[x] else 0 {
      GroupCounts(channels, p, x);
      assert multiset(out)[x] == if x.priority in ps then multiset(channels)[x] else 0;
    }
    forall i | 0 <= i < |group| ensures group[i].priority == p {
      assert multiset(group)[group[i]] > 0;
      GroupCounts(channels, p, group[i]);
    }
    forall i | 0 <= i < |out| ensures out[i].priority > p {
      assert multiset(out)[out[i]] > 0;
    }
  }

  /** What is in order after the groups of some priorities. */
  ghost predicate InOrder(out: seq<Channel>, channels: seq<Channel>, ps: seq<int>, rng: Source) {
    Taken(out, channels, ps) && PriorityOrder(out) && forall p | p in ps :: GroupSampled(channels, out, rng, p)
  }

  lemma NextGroup(out: seq<Channel>, channels: seq<Channel>, ps: seq<int>, p: int, group: seq<Channel>, picks: seq<nat>,
                  rng: Source, k: nat)
    requires InOrder(out, channels, ps, rng) && Sampled(WithPriority(channels, p), picks, group, rng, k)
    requires forall q | q in ps :: q > p
    ensures InOrder(out + group, channels, ps + [p], rng)
  {
    SampledIsPermutation(WithPriority(channels, p), picks, group, rng, k);
    SampledStep(channels, out, ps, p, group, rng);
    TakenStep(out, channels, ps, p, group);
  }

  lemma NothingInOrder(channels: seq<Channel>, rng: Source)
    ensures InOrder([], channels, [], rng)
  {
  }

  /** Shuffles the group of the next priority and appends it. */
  method TakeGroup(out: seq<Channel>, group: seq<Channel>, ghost channels: seq<Channel>, ghost ps: seq<int>, ghost p: int,
                   rng: Source, k: nat)
    returns (more: seq<Channel>, next: nat)
    requires Fair(rng) && group == WithPriority(channels, p) && InOrder(out, channels, ps, rng) && forall q | q in ps :: q > p
    ensures InOrder(more, channels, ps + [p], rng)
  {
    var shuffled;
    ghost var picks;
    shuffled, next, picks := WeightedShuffle(group, rng, k);
    NextGroup(out, channels, ps, p, shuffled, picks, rng, k);
    more := out + shuffled;
  }

  /** Takes the groups of descending priorities one after the other. */
  method TakeGroups(channels: seq<Channel>, groups: map<int, seq<Channel>>, sorted: seq<int>, rng: Source) returns (out: seq<Channel>)
    requires Fair(rng) && Grouped(groups, channels) && Descending(sorted)
    ensures InOrder(out, channels, sorted, rng)
  {
    out := [];
    var next := 0;
    NothingInOrder(channels, rng);
    for i := 0 to |sorted|
      invariant InOrder(out, channels, sorted[..i], rng)
    {
      assert Group(groups, sorted[i]) == WithPriority(channels, sorted[i]);
      out, next := TakeGroup(out, Group(groups, sorted[i]), channels, sorted[..i], sorted[i], rng, next);
      assert sorted[..i + 1] == sorted[..i] + [sorted[i]];
    }
    assert sorted[..|sorted|] == sorted;
  }

  /** For every random source: a permutation of the input, highest priority first, weighted inside each priority. */
  method OrderCandidates(channels: seq<Channel>, rng: Source) returns (out: seq<Channel>)
    requires Fair(rng)
    ensures IsOrder(channels, out, rng)
  {
    var groups, priorities := GroupByPriority(channels);
    var sorted := SortDescending(priorities);
    out := TakeGroups(channels, groups, sorted, rng);
    AllTaken(out, channels, sorted, groups);
    AllSampled(out, channels, sorted, rng);
  }

  lemma AllSampled(out: seq<Channel>, channels: seq<Channel>, ps: seq<int>, rng: Source)
    requires Taken(out, channels, ps) && multiset(out) == multiset(channels)
    requires forall p | p in ps :: GroupSampled(channels, out, rng, p)
    ensures forall p :: GroupSampled(channels, out, rng, p)
  {
    forall p ensures GroupSampled(channels, out, rng, p) {
      if p !in ps {
        forall i | 0 <= i < |out| ensures out[i].priority != p { assert multiset(out)[out[i]] > 0; }
        forall i | 0 <= i < |channels| ensures channels[i].priority != p { assert multiset(out)[channels[i]] > 0; }
        NoPriority(out, p);
        NoPriority(channels, p);
        assert Sampled(WithPriority(channels, p), [], WithPriority(out, p), rng, 0);
      }
    }
  }

  lemma AllTaken(out: seq<Channel>, channels: seq<Channel>, ps: seq<int>, groups: map<int, seq<Channel>>)
    requires Taken(out, channels, ps) && Grouped(groups, channels) && forall p | p in groups :: p in ps
    ensures multiset(out) == multiset(channels)
  {
    forall x: Channel ensures multiset(out)[x] == multiset(channels)[x] {
      if x in channels { EveryPriorityHasAGroup(groups, channels, x); }
    }
  }
}
