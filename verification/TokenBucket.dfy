/** The rate limiter's token bucket: one atomic script over a key that refills lazily and expires. */
module TokenBucket {
  import opened Int64

  datatype Limits = Limits(capacity: real, refill: real)

  predicate Positive(l: Limits) { l.capacity > 0.0 && l.refill > 0.0 }

  /** The limits of a caller with a whole number of requests a minute. */
  function PerMinute(n: nat): (l: Limits)
    requires n > 0
    ensures Positive(l) && l.capacity >= 1.0
  {
    Limits(n as real, n as real / 60.0)
  }

  datatype Key = Key(tokens: real, ts: real)
  datatype Reply = Reply(allowed: bool, remaining: int, retryAfter: int)

  function Ceil(x: real): (n: int)
    ensures x <= n as real < x + 1.0
  {
    -((-x).Floor)
  }

  function Min(x: real, y: real): real { if x < y then x else y }

  function Max(x: real, y: real): real { if x > y then x else y }

  /** A key outlives its last use by about twice the time in which an empty bucket fills. */
  function Ttl(l: Limits): (t: int)
    requires Positive(l)
    ensures t % 2 == 0 && 2.0 * (l.capacity / l.refill) <= t as real < 2.0 * (l.capacity / l.refill) + 2.0
  {
    Ceil(l.capacity / l.refill) * 2
  }

  /** The key as the script finds it: one that has outlived its time to live is gone. */
  function Seen(l: Limits, key: Option<Key>, now: real): Option<Key>
    requires Positive(l)
  {
    if key.Some? && now >= key.value.ts + Ttl(l) as real then None else key
  }

  /** The tokens a key is worth after the lazy refill; a key never seen is a full bucket. */
  function Available(l: Limits, key: Option<Key>, now: real): real {
    match key
    case None => l.capacity
    case Some(k) => Min(l.capacity, k.tokens + Max(0.0, now - k.ts) * l.refill)
  }

  function Left(tokens: real, requested: real): real { if tokens >= requested then tokens - requested else tokens }

  function Wait(l: Limits, tokens: real, requested: real): int
    requires Positive(l)
  {
    if tokens >= requested then 0 else Ceil((requested - tokens) / l.refill)
  }

  function ReplyOf(l: Limits, tokens: real, requested: real): Reply
    requires Positive(l)
  {
    Reply(tokens >= requested, Left(tokens, requested).Floor, Wait(l, tokens, requested))
  }

  /** One run of the script. */
  function Take(l: Limits, key: Option<Key>, requested: real, now: real): (Option<Key>, Reply)
    requires Positive(l)
  {
    var tokens := Available(l, Seen(l, key, now), now);
    (Some(Key(Left(tokens, requested), now)), ReplyOf(l, tokens, requested))
  }

  /** The key of one caller, updated in place by the script. */
  class RedisKey {
    var key: Option<Key>
    var expiresAt: real

    ghost predicate Valid(l: Limits)
      requires Positive(l)
      reads this
    {
      key.Some? ==> expiresAt == key.value.ts + Ttl(l) as real
    }

    constructor ()
      ensures key == None && forall l | Positive(l) :: Valid(l)
    {
      key, expiresAt := None, 0.0;
    }

    method Run(l: Limits, requested: real, now: real) returns (reply: Reply)
      requires Positive(l) && Valid(l)
      modifies this
      ensures Valid(l) && (key, reply) == Take(l, old(key), requested, now)
    {
      if key.Some? && now >= expiresAt {
        key := None;
      }
      var tokens, ts := l.capacity, now;
      if key.Some? {
        tokens, ts := key.value.tokens, key.value.ts;
      }
      var elapsed := Max(0.0, now - ts);
      assert key.None? ==> elapsed == 0.0 && elapsed * l.refill == 0.0;
      tokens := Min(l.capacity, tokens + elapsed * l.refill);
      ghost var worth := Available(l, Seen(l, old(key), now), now);
      assert tokens == worth;
      var allowed, retryAfter := false, 0;
      if tokens >= requested {
        allowed := true;
        tokens := tokens - requested;
      } else {
        retryAfter := Ceil((requested - tokens) / l.refill);
      }
      key := Some(Key(tokens, now));
      var ttl := Ceil(l.capacity / l.refill) * 2;
      expiresAt := now + ttl as real;
      return Reply(allowed, tokens.Floor, retryAfter);
    }
  }

  // ---- runs ----

  datatype Request = Request(at: real, requested: real)

  /** A key as the script leaves it. */
  predicate Stored(l: Limits, key: Option<Key>) { key.Some? ==> 0.0 <= key.value.tokens <= l.capacity }

  function Replies(l: Limits, key: Option<Key>, requests: seq<Request>): seq<Reply>
    requires Positive(l)
    decreases |requests|
  {
    if requests == [] then []
    else
      var (after, reply) := Take(l, key, requests[0].requested, requests[0].at);
      [reply] + Replies(l, after, requests[1..])
  }

  /** What each request finds in a bucket that is kept forever and is worth what a function says. */
  function Found(worth: (Option<Key>, real) -> real, key: Option<Key>, requests: seq<Request>): (found: seq<real>)
    ensures |found| == |requests|
    decreases |requests|
  {
    if requests == [] then []
    else
      var tokens := worth(key, requests[0].at);
      [tokens] + Found(worth, Some(Key(Left(tokens, requests[0].requested), requests[0].at)), requests[1..])
  }

  function Worth(l: Limits): (Option<Key>, real) -> real { (key, now) => Available(l, key, now) }

  /** The replies of a bucket that is kept forever. */
  function RepliesOf(l: Limits, requests: seq<Request>, found: seq<real>): seq<Reply>
    requires Positive(l) && |requests| == |found|
  {
    seq(|requests|, i requires 0 <= i < |requests| => ReplyOf(l, found[i], requests[i].requested))
  }

  /** The tokens granted to the requests that arrive in a window. */
  function Granted(requests: seq<Request>, replies: seq<Reply>, s: real, t: real): real {
    if requests == [] || replies == [] then 0.0
    else
      (if replies[0].allowed && s <= requests[0].at <= t then requests[0].requested else 0.0)
      + Granted(requests[1..], replies[1..], s, t)
  }

  // ---- expiry ----

  lemma Product(x: real, y: real, r: real)
    requires x <= y && r > 0.0
    ensures x * r <= y * r
  {
  }

  lemma Distribute(x: real, y: real, r: real)
    ensures (x + y) * r == x * r + y * r
  {
  }

  /** A key that has lived at least the time of a whole refill is worth a full bucket. */
  lemma FullAgain(l: Limits, key: Key, now: real)
    requires Positive(l) && key.tokens >= 0.0 && now - key.ts >= l.capacity / l.refill
    ensures Available(l, Some(key), now) == l.capacity
  {
    Product(l.capacity / l.refill, now - key.ts, l.refill);
    assert l.capacity / l.refill > 0.0;
  }

  /** Losing an expired key does not change what it is worth. */
  lemma ExpiryKeepsWorth(l: Limits, key: Option<Key>, now: real)
    requires Positive(l) && Stored(l, key)
    ensures Available(l, Seen(l, key, now), now) == Available(l, key, now)
  {
    if key.Some? && now >= key.value.ts + Ttl(l) as real {
      assert l.capacity / l.refill > 0.0;
      FullAgain(l, key.value, now);
    }
  }

  lemma AvailableBounds(l: Limits, key: Option<Key>, now: real)
    requires Positive(l) && Stored(l, key)
    ensures 0.0 <= Available(l, key, now) <= l.capacity
  {
    if key.Some? { Product(0.0, Max(0.0, now - key.value.ts), l.refill); }
  }

  lemma RepliesCons(l: Limits, r: Request, requests: seq<Request>, tokens: real, found: seq<real>)
    requires Positive(l) && |requests| == |found|
    ensures RepliesOf(l, [r] + requests, [tokens] + found) == [ReplyOf(l, tokens, r.requested)] + RepliesOf(l, requests, found)
  {
  }

  /** Expiry is unobservable: every reply is the one of a bucket that is kept forever. */
  lemma {:induction false} ExpiryIsUnobservable(l: Limits, key: Option<Key>, requests: seq<Request>)
    requires Positive(l) && Stored(l, key) && forall i | 0 <= i < |requests| :: requests[i].requested > 0.0
    ensures Replies(l, key, requests) == RepliesOf(l, requests, Found(Worth(l), key, requests))
    decreases |requests|
  {
    if requests != [] {
      var r, tail := requests[0], requests[1..];
      var tokens := Available(l, key, r.at);
      var after := Some(Key(Left(tokens, r.requested), r.at));
      ExpiryKeepsWorth(l, key, r.at);
      AvailableBounds(l, key, r.at);
      ExpiryIsUnobservable(l, after, tail);
      RepliesCons(l, r, tail, tokens, Found(Worth(l), after, tail));
      assert requests == [r] + tail;
    }
  }

  // ---- what is granted ----

  /** What the requests of a window take. */
  function Taken(requests: seq<Request>, found: seq<real>, s: real, t: real): real
    requires |requests| == |found|
    decreases |requests|
  {
    if requests == [] then 0.0
    else
      (if s <= requests[0].at <= t then found[0] - Left(found[0], requests[0].requested) else 0.0)
      + Taken(requests[1..], found[1..], s, t)
  }

  lemma GrantedCons(r: Request, requests: seq<Request>, reply: Reply, replies: seq<Reply>, s: real, t: real)
    ensures Granted([r] + requests, [reply] + replies, s, t)
         == (if reply.allowed && s <= r.at <= t then r.requested else 0.0) + Granted(requests, replies, s, t)
  {
    assert ([r] + requests)[1..] == requests && ([reply] + replies)[1..] == replies;
  }

  /** What is granted in a window is what is taken in it. */
  lemma {:induction false} GrantedIsTaken(l: Limits, requests: seq<Request>, found: seq<real>, s: real, t: real)
    requires Positive(l) && |requests| == |found|
    ensures Granted(requests, RepliesOf(l, requests, found), s, t) == Taken(requests, found, s, t)
    decreases |requests|
  {
    if requests != [] {
      var r, tail := requests[0], requests[1..];
      GrantedIsTaken(l, tail, found[1..], s, t);
      assert requests == [r] + tail && found == [found[0]] + found[1..];
      RepliesCons(l, r, tail, found[0], found[1..]);
      GrantedCons(r, tail, ReplyOf(l, found[0], r.requested), RepliesOf(l, tail, found[1..]), s, t);
    }
  }

  // ---- what the reply promises ----

  lemma EnoughAfter(missing: real, refill: real, wait: nat)
    requires missing > 0.0 && refill > 0.0
    ensures wait as real * refill >= missing <==> wait >= Ceil(missing / refill)
    ensures Ceil(missing / refill) >= 1
  {
    var need := missing / refill;
    assert need * refill == missing && need > 0.0;
    if wait as real >= need { Product(need, wait as real, refill); }
  }

  /** A key comes back worth its tokens and the refill of the wait, up to the capacity. */
  lemma Waited(l: Limits, key: Key, wait: nat)
    requires Positive(l) && Stored(l, Some(key))
    ensures Available(l, Some(key), key.ts + wait as real) == Min(l.capacity, key.tokens + wait as real * l.refill)
  {
    assert key.ts + wait as real - key.ts == wait as real;
  }

  /** What one run of the script replies and leaves, whether the key had expired or not. */
  lemma TakeForever(l: Limits, key: Option<Key>, requested: real, now: real)
    requires Positive(l) && Stored(l, key) && requested > 0.0
    ensures var tokens := Available(l, key, now);
      0.0 <= tokens <= l.capacity && Take(l, key, requested, now) == (Some(Key(Left(tokens, requested), now)), ReplyOf(l, tokens, requested))
  {
    ExpiryKeepsWorth(l, key, now);
    AvailableBounds(l, key, now);
  }

  lemma ReturnsLater(l: Limits, key: Key, requested: real, wait: nat)
    requires Positive(l) && Stored(l, Some(key)) && key.tokens < requested <= l.capacity
    ensures Take(l, Some(key), requested, key.ts + wait as real).1.allowed <==> wait >= Ceil((requested - key.tokens) / l.refill)
  {
    ExpiryKeepsWorth(l, Some(key), key.ts + wait as real);
    Waited(l, key, wait);
    EnoughAfter(requested - key.tokens, l.refill, wait);
  }

  /** A denied caller who returns alone is allowed after retryAfter seconds or more and after no smaller whole number. */
  lemma RetryAfterIsLeast(l: Limits, key: Option<Key>, requested: real, now: real, wait: nat)
    requires Positive(l) && Stored(l, key) && 0.0 < requested <= l.capacity
    requires !Take(l, key, requested, now).1.allowed
    ensures var (after, reply) := Take(l, key, requested, now);
      reply.retryAfter >= 1 && (Take(l, after, requested, now + wait as real).1.allowed <==> wait >= reply.retryAfter)
  {
    var tokens := Available(l, key, now);
    TakeForever(l, key, requested, now);
    ReturnsLater(l, Key(tokens, now), requested, wait);
    EnoughAfter(requested - tokens, l.refill, wait);
  }

  /** No caller with a limit per minute is told to wait more than a minute. */
  lemma WaitsAtMostAMinute(n: nat, key: Option<Key>, now: real)
    requires n > 0 && Stored(PerMinute(n), key)
    ensures Take(PerMinute(n), key, 1.0, now).1.retryAfter <= 60
  {
    var l := PerMinute(n);
    var tokens := Available(l, key, now);
    TakeForever(l, key, 1.0, now);
    if tokens < 1.0 {
      assert 60.0 * l.refill == n as real;
      EnoughAfter(1.0 - tokens, l.refill, 60);
    }
  }

  lemma RightAfter(l: Limits, tokens: real, now: real)
    requires Positive(l) && 0.0 <= tokens <= l.capacity
    ensures Available(l, Some(Key(tokens, now)), now) == tokens
  {
  }

  function SameTime(now: real, n: nat): seq<Request> { seq(n, _ => Request(now, 1.0)) }

  function WholeTokens(tokens: real, n: nat): real { if n <= tokens.Floor then n as real else tokens.Floor as real }

  lemma OneToken(tokens: real, n: nat)
    requires tokens >= 0.0 && n > 0
    ensures WholeTokens(tokens, n) == if tokens >= 1.0 then 1.0 + WholeTokens(tokens - 1.0, n - 1) else WholeTokens(tokens, n - 1)
    ensures tokens < 1.0 ==> WholeTokens(tokens, n) == 0.0
  {
  }

  /** Of requests of one token, as many are granted at once as the bucket holds whole tokens. */
  lemma {:induction false} WholeTokensAreGranted(l: Limits, key: Option<Key>, now: real, n: nat)
    requires Positive(l) && Stored(l, key)
    ensures Granted(SameTime(now, n), Replies(l, key, SameTime(now, n)), now, now) == WholeTokens(Available(l, key, now), n)
    decreases n
  {
    AvailableBounds(l, key, now);
    if n > 0 {
      var tokens := Available(l, key, now);
      var r, tail := Request(now, 1.0), SameTime(now, n - 1);
      var after := Some(Key(Left(tokens, 1.0), now));
      ExpiryKeepsWorth(l, key, now);
      RightAfter(l, Left(tokens, 1.0), now);
      WholeTokensAreGranted(l, after, now, n - 1);
      OneToken(tokens, n);
      assert SameTime(now, n) == [r] + tail;
      GrantedCons(r, tail, ReplyOf(l, tokens, 1.0), Replies(l, after, tail), now, now);
    }
  }

  /** The reply is exact: of any number of further requests of one token at the same time, as many are granted as it says
      remain, and an allowed caller is not told to wait. */
  lemma RemainingIsExact(l: Limits, key: Option<Key>, requested: real, now: real, n: nat)
    requires Positive(l) && Stored(l, key) && requested > 0.0
    ensures var (after, reply) := Take(l, key, requested, now);
      && reply.remaining >= 0 && (reply.allowed ==> reply.retryAfter == 0)
      && Granted(SameTime(now, n), Replies(l, after, SameTime(now, n)), now, now)
         == if n <= reply.remaining then n as real else reply.remaining as real
  {
    var tokens := Available(l, key, now);
    TakeForever(l, key, requested, now);
    RightAfter(l, Left(tokens, requested), now);
    WholeTokensAreGranted(l, Some(Key(Left(tokens, requested), now)), now, n);
  }

  /** A caller never seen before, with a limit of n a minute, gets exactly n requests at once. */
  lemma FirstBurst(n: nat, now: real, k: nat)
    requires n > 0
    ensures Granted(SameTime(now, k), Replies(PerMinute(n), None, SameTime(now, k)), now, now) == if k <= n then k as real else n as real
  {
    WholeTokensAreGranted(PerMinute(n), None, now, k);
  }
}
