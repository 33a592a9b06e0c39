/** The token bucket rate limiter, on real numbers.  Times are seconds. */
module RateLimiter {
  import opened Common

  datatype Bucket = Bucket(tokens: real, lastRefilled: real)

  type Buckets = map<string, Bucket>

  datatype Config = Config(rate: real, capacity: real)

  /** Buckets not used for longer than this are deleted, when the ticker of the cleanup loop next fires. */
  const IDLE := 600.0
  const TICK := 600.0

  ghost predicate Sensible(c: Config) {
    c.rate >= 0.0 && c.capacity >= 0.0
  }

  function Least(a: real, b: real): real {
    if a <= b then a else b
  }

  function Find(m: Buckets, ip: string): Option<Bucket> {
    if ip in m then Some(m[ip]) else None
  }

  /** The tokens a caller finds at time `now`; a caller without a bucket gets a full one. */
  function Level(c: Config, b: Option<Bucket>, now: real): real {
    match b
    case None => c.capacity
    case Some(b) => Least(c.capacity, b.tokens + (now - b.lastRefilled) * c.rate)
  }

  /** What the limiter sees: requests of callers, and ticks of its cleanup loop. */
  datatype Event = Request(ip: string, at: real) | Sweep(at: real)

  predicate Allowed(c: Config, m: Buckets, ip: string, at: real) {
    Level(c, Find(m, ip), at) >= 1.0
  }

  function Take(c: Config, m: Buckets, ip: string, at: real): Buckets {
    var level := Level(c, Find(m, ip), at);
    m[ip := Bucket(if level >= 1.0 then level - 1.0 else level, at)]
  }

  function Keep(m: Buckets, at: real): Buckets {
    map ip | ip in m && at - m[ip].lastRefilled <= IDLE :: m[ip]
  }

  function Next(c: Config, m: Buckets, e: Event, sweeping: bool): Buckets {
    match e
    case Request(ip, at) => Take(c, m, ip, at)
    case Sweep(at) => if sweeping then Keep(m, at) else m
  }

  /** The limiter as the program has it. */
  class Limiter {
    var buckets: Buckets
    const config: Config

    constructor (config: Config)
      ensures this.config == config && buckets == map[]
    {
      this.config := config;
      buckets := map[];
    }

    method Allow(ip: string, now: real) returns (allowed: bool)
      modifies `buckets
      ensures allowed == Allowed(config, old(buckets), ip, now)
      ensures buckets == Take(config, old(buckets), ip, now)
    {
      if ip !in buckets {
        buckets := buckets[ip := Bucket(config.capacity, now)];
      }
      var bucket := buckets[ip];
      var elapsed := now - bucket.lastRefilled;
      bucket := bucket.(lastRefilled := now);
      bucket := bucket.(tokens := bucket.tokens + elapsed * config.rate);
      if bucket.tokens > config.capacity {
        bucket := bucket.(tokens := config.capacity);
      }
      allowed := bucket.tokens >= 1.0;
      if allowed {
        bucket := bucket.(tokens := bucket.tokens - 1.0);
      }
      buckets := buckets[ip := bucket];
    }

    /** One tick of the cleanup loop. */
    method Cleanup(now: real)
      modifies `buckets
      ensures buckets == Keep(old(buckets), now)
    {
      var rest := buckets.Keys;
      while rest != {}
        invariant rest <= old(buckets).Keys
        invariant forall ip :: ip in buckets <==>
                    ip in old(buckets) && (ip in rest || now - old(buckets)[ip].lastRefilled <= IDLE)
        invariant forall ip :: ip in buckets ==> buckets[ip] == old(buckets)[ip]
        decreases |rest|
      {
        var ip :| ip in rest;
        if now - buckets[ip].lastRefilled > IDLE {
          buckets := buckets - {ip};
        }
        rest := rest - {ip};
      }
    }
  }

  // --- Traces ---------------------------------------------------------------------------------------

  ghost function After(c: Config, m: Buckets, trace: seq<Event>, sweeping: bool): Buckets {
    if |trace| == 0 then m
    else Next(c, After(c, m, trace[..|trace| - 1], sweeping), trace[|trace| - 1], sweeping)
  }

  ghost predicate Admits(c: Config, m: Buckets, e: Event, ip: string) {
    e.Request? && e.ip == ip && Allowed(c, m, ip, e.at)
  }

  /** How many requests of `ip` a trace admits. */
  ghost function Count(c: Config, m: Buckets, trace: seq<Event>, ip: string, sweeping: bool): nat {
    if |trace| == 0 then 0
    else
      var front, e := trace[..|trace| - 1], trace[|trace| - 1];
      Count(c, m, front, ip, sweeping) + (if Admits(c, After(c, m, front, sweeping), e, ip) then 1 else 0)
  }

  lemma {:induction false} TraceConcat(c: Config, m: Buckets, a: seq<Event>, b: seq<Event>, ip: string, sweeping: bool)
    ensures After(c, m, a + b, sweeping) == After(c, After(c, m, a, sweeping), b, sweeping)
    ensures Count(c, m, a + b, ip, sweeping) == Count(c, m, a, ip, sweeping) + Count(c, After(c, m, a, sweeping), b, ip, sweeping)
  {
    if |b| == 0 {
      assert a + b == a;
    } else {
      var front := b[..|b| - 1];
      TraceConcat(c, m, a, front, ip, sweeping);
      assert (a + b)[..|a + b| - 1] == a + front;
    }
  }

  /** The clock never runs backwards. */
  ghost predicate Ordered(trace: seq<Event>) {
    forall i, j :: 0 <= i < j < |trace| ==> trace[i].at <= trace[j].at
  }

  function Sweeps(trace: seq<Event>): nat {
    if |trace| == 0 then 0 else Sweeps(trace[..|trace| - 1]) + (if trace[|trace| - 1].Sweep? then 1 else 0)
  }

  /** The sweeps of a trace are those of a ticker started at `start`: none is early, late or left out. */
  ghost predicate TickedFrom(trace: seq<Event>, start: real) {
    |trace| == 0
    || (var front, e := trace[..|trace| - 1], trace[|trace| - 1];
        var last := start + Sweeps(front) as real * TICK;
        && TickedFrom(front, start)
        && match e
           case Sweep(at) => at == last + TICK
           case Request(_, at) => last <= at <= last + TICK)
  }

  ghost predicate Ticked(trace: seq<Event>) {
    exists start :: TickedFrom(trace, start)
  }

  /** A trace that can happen: in the order of the clock and, if `ticked`, with the sweeps of a ticker. */
  ghost predicate Possible(trace: seq<Event>, ticked: bool) {
    Ordered(trace) && (ticked ==> Ticked(trace))
  }

  lemma PossibleFront(trace: seq<Event>, ticked: bool)
    requires |trace| > 0 && Possible(trace, ticked)
    ensures Possible(trace[..|trace| - 1], ticked)
  {
    if ticked {
      var start :| TickedFrom(trace, start);
      assert TickedFrom(trace[..|trace| - 1], start);
    }
  }

  ghost predicate Within(trace: seq<Event>, s: real, t: real) {
    forall i :: 0 <= i < |trace| ==> s <= trace[i].at <= t
  }

  /** No bucket is overdrawn, overfull or ahead of the clock. */
  ghost predicate Sane(c: Config, m: Buckets, now: real) {
    forall ip :: ip in m ==> 0.0 <= m[ip].tokens <= c.capacity && m[ip].lastRefilled <= now
  }

  lemma ElapsedGain(rate: real, a: real, b: real, d: real)
    ensures (b + d - a) * rate == (b - a) * rate + d * rate
  {
  }

  lemma ProductNonNegative(a: real, b: real)
    requires a >= 0.0 && b >= 0.0
    ensures a * b >= 0.0
  {
  }

  lemma ProductMonotone(a: real, b: real, c: real)
    requires a <= b && c >= 0.0
    ensures a * c <= b * c
  {
  }

  /** A level is never negative, never above the capacity, and rises no faster than the rate. */
  lemma LevelRises(c: Config, b: Option<Bucket>, u: real, t: real)
    requires Sensible(c) && u <= t
    requires b.Some? ==> 0.0 <= b.value.tokens <= c.capacity && b.value.lastRefilled <= u
    ensures 0.0 <= Level(c, b, u) <= c.capacity
    ensures Level(c, b, u) <= Level(c, b, t) <= Level(c, b, u) + c.rate * (t - u)
  {
    ProductNonNegative(c.rate, t - u);
    if b.Some? {
      ProductNonNegative(u - b.value.lastRefilled, c.rate);
      ElapsedGain(c.rate, b.value.lastRefilled, u, t - u);
    }
  }

  lemma SaneNext(c: Config, m: Buckets, e: Event, u: real, sweeping: bool)
    requires Sensible(c) && Sane(c, m, u) && u <= e.at
    ensures Sane(c, Next(c, m, e, sweeping), e.at)
  {
    if e.Request? {
      LevelRises(c, Find(m, e.ip), e.at, e.at);
    }
  }

  lemma FrontOf(trace: seq<Event>, s: real, t: real)
    requires |trace| > 0 && Ordered(trace) && Within(trace, s, t)
    ensures var front, e := trace[..|trace| - 1], trace[|trace| - 1];
            Ordered(front) && Within(front, s, e.at) && s <= e.at <= t
  {
  }

  lemma {:induction false} SaneAfter(c: Config, m: Buckets, trace: seq<Event>, s: real, t: real, sweeping: bool)
    requires Sensible(c) && Sane(c, m, s) && Ordered(trace) && Within(trace, s, t) && s <= t
    ensures Sane(c, After(c, m, trace, sweeping), t)
    decreases |trace|
  {
    if |trace| > 0 {
      var front, e := trace[..|trace| - 1], trace[|trace| - 1];
      FrontOf(trace, s, t);
      SaneAfter(c, m, front, s, e.at, sweeping);
      SaneNext(c, After(c, m, front, sweeping), e, e.at, sweeping);
    }
  }

  // --- The rate bound --------------------------------------------------------------------------------

  /** An idle bucket has filled up again, so deleting it changes nothing. */
  ghost predicate FillsWhileIdle(c: Config) {
    IDLE * c.rate >= c.capacity
  }

  lemma FilledUp(tokens: real, elapsed: real, rate: real, capacity: real)
    requires tokens >= 0.0 && elapsed >= IDLE && rate >= 0.0 && IDLE * rate >= capacity
    ensures tokens + elapsed * rate >= capacity
  {
    ProductMonotone(IDLE, elapsed, rate);
  }

  lemma SweepKeepsLevel(c: Config, m: Buckets, at: real, ip: string, t: real)
    requires Sensible(c) && FillsWhileIdle(c) && Sane(c, m, at) && at <= t
    ensures Level(c, Find(Keep(m, at), ip), t) == Level(c, Find(m, ip), t)
  {
    if ip in m && at - m[ip].lastRefilled > IDLE {
      FilledUp(m[ip].tokens, t - m[ip].lastRefilled, c.rate, c.capacity);
    }
  }

  /** What one event takes from the level of a caller. */
  lemma EventTakes(c: Config, m: Buckets, e: Event, ip: string, sweeping: bool)
    requires Sensible(c) && Sane(c, m, e.at) && (sweeping ==> FillsWhileIdle(c))
    ensures Level(c, Find(Next(c, m, e, sweeping), ip), e.at)
            == Level(c, Find(m, ip), e.at) - (if Admits(c, m, e, ip) then 1.0 else 0.0)
  {
    if e.Sweep? {
      if sweeping {
        SweepKeepsLevel(c, m, e.at, ip, e.at);
      }
    } else {
      LevelRises(c, Find(m, e.ip), e.at, e.at);
      LevelNow(c, Next(c, m, e, sweeping)[e.ip]);
      assert ip != e.ip ==> Find(Next(c, m, e, sweeping), ip) == Find(m, ip);
    }
  }

  lemma LevelNow(c: Config, b: Bucket)
    ensures Level(c, Some(b), b.lastRefilled) == Least(c.capacity, b.tokens)
  {
    assert (b.lastRefilled - b.lastRefilled) * c.rate == 0.0;
  }

  lemma RefillSplits(rate: real, s: real, u: real, t: real)
    ensures rate * (t - s) == rate * (u - s) + rate * (t - u)
  {
  }

  lemma Chain(n: real, x: real, l0: real, l1: real, l2: real, g1: real, g2: real)
    requires n + l1 <= l0 + g1 && l2 + x <= l1 + g2
    ensures n + x + l2 <= l0 + (g1 + g2)
  {
  }

  /** Tokens are conserved: what a trace admits plus what is left is at most what there was plus what
      has been refilled. */
  lemma {:induction false} TokensConserved(c: Config, m: Buckets, trace: seq<Event>, ip: string, s: real, t: real, sweeping: bool)
    requires Sensible(c) && Sane(c, m, s) && Ordered(trace) && Within(trace, s, t) && s <= t
    requires sweeping ==> FillsWhileIdle(c)
    ensures Count(c, m, trace, ip, sweeping) as real + Level(c, Find(After(c, m, trace, sweeping), ip), t)
            <= Level(c, Find(m, ip), s) + c.rate * (t - s)
    decreases |trace|
  {
    if |trace| == 0 {
      LevelRises(c, Find(m, ip), s, t);
    } else {
      var front, e := trace[..|trace| - 1], trace[|trace| - 1];
      var m1 := After(c, m, front, sweeping);
      FrontOf(trace, s, t);
      TokensConserved(c, m, front, ip, s, e.at, sweeping);
      SaneAfter(c, m, front, s, e.at, sweeping);
      LastEvent(c, m1, e, ip, t, sweeping);
      RefillSplits(c.rate, s, e.at, t);
      Chain(Count(c, m, front, ip, sweeping) as real, if Admits(c, m1, e, ip) then 1.0 else 0.0,
            Level(c, Find(m, ip), s), Level(c, Find(m1, ip), e.at), Level(c, Find(Next(c, m1, e, sweeping), ip), t),
            c.rate * (e.at - s), c.rate * (t - e.at));
    }
  }

  lemma LastEvent(c: Config, m: Buckets, e: Event, ip: string, t: real, sweeping: bool)
    requires Sensible(c) && Sane(c, m, e.at) && e.at <= t && (sweeping ==> FillsWhileIdle(c))
    ensures Level(c, Find(Next(c, m, e, sweeping), ip), t) + (if Admits(c, m, e, ip) then 1.0 else 0.0)
            <= Level(c, Find(m, ip), e.at) + c.rate * (t - e.at)
  {
    EventTakes(c, m, e, ip, sweeping);
    SaneNext(c, m, e, e.at, sweeping);
    LevelRises(c, Find(Next(c, m, e, sweeping), ip), e.at, t);
  }

  /** A limiter whose capacity is below one token admits nobody. */
  lemma {:induction false} TinyAdmitsNobody(c: Config, m: Buckets, trace: seq<Event>, ip: string, sweeping: bool)
    requires c.capacity < 1.0
    ensures Count(c, m, trace, ip, sweeping) == 0
  {
    if |trace| > 0 {
      TinyAdmitsNobody(c, m, trace[..|trace| - 1], ip, sweeping);
    }
  }

  /** The guard under which the cleanup loop does no harm. */
  ghost predicate Harmless(c: Config) {
    c.capacity < 1.0 || FillsWhileIdle(c)
  }

  /** `n` admissions in an interval of length `d` are no more than the capacity plus what is refilled. */
  ghost predicate Obeys(c: Config, n: int, d: real) {
    n as real <= c.capacity + c.rate * d
  }

  /** In any interval of any trace, at most the capacity plus what the interval refills is admitted. */
  ghost predicate RateBounded(c: Config, sweeping: bool, ticked: bool) {
    forall before: seq<Event>, during: seq<Event>, ip, s: real, t: real
      {:trigger Count(c, After(c, map[], before, sweeping), during, ip, sweeping), Within(during, s, t)} ::
      Possible(before + during, ticked) && Within(during, s, t) && s <= t ==>
        Obeys(c, Count(c, After(c, map[], before, sweeping), during, ip, sweeping), t - s)
  }

  lemma SegmentBounded(c: Config, before: seq<Event>, during: seq<Event>, ip: string, s: real, t: real, sweeping: bool)
    requires Sensible(c) && (sweeping ==> Harmless(c))
    requires Ordered(before + during) && Within(during, s, t) && s <= t
    ensures Obeys(c, Count(c, After(c, map[], before, sweeping), during, ip, sweeping), t - s)
  {
    var m := After(c, map[], before, sweeping);
    var n := Count(c, m, during, ip, sweeping);
    if c.capacity < 1.0 {
      TinyAdmitsNobody(c, m, during, ip, sweeping);
      LongerRefillsMore(c, n, 0.0, t - s);
    } else if |during| == 0 {
      LongerRefillsMore(c, n, 0.0, t - s);
    } else {
      SegmentStarts(before, during, s, t);
      SaneStart(c, before, during[0].at, sweeping);
      SaneBounded(c, m, during, ip, during[0].at, t, sweeping);
      LongerRefillsMore(c, n, t - during[0].at, t - s);
    }
  }

  lemma LongerRefillsMore(c: Config, n: int, d: real, d': real)
    requires Sensible(c) && Obeys(c, n, d) && d <= d'
    ensures Obeys(c, n, d')
  {
    assert c.rate * d <= c.rate * d';
  }

  /** From any sane state. */
  lemma SaneBounded(c: Config, m: Buckets, trace: seq<Event>, ip: string, s: real, t: real, sweeping: bool)
    requires Sensible(c) && Sane(c, m, s) && Ordered(trace) && Within(trace, s, t) && s <= t
    requires sweeping ==> FillsWhileIdle(c)
    ensures Obeys(c, Count(c, m, trace, ip, sweeping), t - s)
  {
    TokensConserved(c, m, trace, ip, s, t, sweeping);
    SaneAfter(c, m, trace, s, t, sweeping);
    LevelRange(c, Find(m, ip), s);
    LevelRange(c, Find(After(c, m, trace, sweeping), ip), t);
  }

  lemma LevelRange(c: Config, b: Option<Bucket>, u: real)
    requires Sensible(c)
    requires b.Some? ==> 0.0 <= b.value.tokens <= c.capacity && b.value.lastRefilled <= u
    ensures 0.0 <= Level(c, b, u) <= c.capacity
  {
    LevelRises(c, b, u, u);
  }

  lemma SegmentStarts(before: seq<Event>, during: seq<Event>, s: real, t: real)
    requires Ordered(before + during) && Within(during, s, t) && |during| > 0
    ensures var u := during[0].at;
            && Ordered(before) && Ordered(during) && Within(during, u, t) && s <= u <= t
            && forall i :: 0 <= i < |before| ==> before[i].at <= u
  {
    var trace, n := before + during, |before|;
    forall i | 0 <= i < |during|
      ensures during[0].at <= during[i].at
    {
      assert during[i] == trace[n + i] && during[0] == trace[n];
    }
    forall i, j | 0 <= i < j < |during|
      ensures during[i].at <= during[j].at
    {
      assert during[i] == trace[n + i] && during[j] == trace[n + j];
    }
    forall i, j | 0 <= i < j < n
      ensures before[i].at <= before[j].at
    {
      assert before[i] == trace[i] && before[j] == trace[j];
    }
    forall i | 0 <= i < n
      ensures before[i].at <= during[0].at
    {
      assert before[i] == trace[i] && during[0] == trace[n];
    }
  }

  /** From the start, the buckets are sane at every time no event is later than. */
  lemma {:induction false} SaneStart(c: Config, trace: seq<Event>, u: real, sweeping: bool)
    requires Sensible(c) && Ordered(trace) && forall i :: 0 <= i < |trace| ==> trace[i].at <= u
    ensures Sane(c, After(c, map[], trace, sweeping), u)
    decreases |trace|
  {
    if |trace| > 0 {
      var front, e := trace[..|trace| - 1], trace[|trace| - 1];
      SaneStart(c, front, e.at, sweeping);
      SaneNext(c, After(c, map[], front, sweeping), e, e.at, sweeping);
    }
  }

  // --- Invisible cleanup -----------------------------------------------------------------------------

  /** Every caller gets the same answers as from a limiter that never deletes a bucket. */
  ghost predicate Unobservable(c: Config, ticked: bool) {
    forall before: seq<Event>, ip, at ::
      Possible(before + [Request(ip, at)], ticked) ==>
        (Allowed(c, After(c, map[], before, true), ip, at) <==> Allowed(c, After(c, map[], before, false), ip, at))
  }

  /** With and without deletions, every caller finds the same level at every later time. */
  lemma {:induction false} SameLevels(c: Config, trace: seq<Event>, ip: string, u: real)
    requires Sensible(c) && FillsWhileIdle(c) && Ordered(trace) && forall i :: 0 <= i < |trace| ==> trace[i].at <= u
    ensures Level(c, Find(After(c, map[], trace, true), ip), u) == Level(c, Find(After(c, map[], trace, false), ip), u)
    decreases |trace|
  {
    if |trace| > 0 {
      var front, e := trace[..|trace| - 1], trace[|trace| - 1];
      var m, n := After(c, map[], front, true), After(c, map[], front, false);
      match e
      case Request(other, at) =>
        if other == ip {
          SameLevels(c, front, ip, at);
        } else {
          SameLevels(c, front, ip, u);
        }
      case Sweep(at) =>
        SameLevels(c, front, ip, u);
        SaneStart(c, front, at, true);
        SweepKeepsLevel(c, m, at, ip, u);
    }
  }

  lemma HarmlessIsUnobservable(c: Config, ticked: bool)
    requires Sensible(c) && Harmless(c)
    ensures Unobservable(c, ticked)
  {
    forall before: seq<Event>, ip, at | Possible(before + [Request(ip, at)], ticked)
      ensures Allowed(c, After(c, map[], before, true), ip, at) <==> Allowed(c, After(c, map[], before, false), ip, at)
    {
      if FillsWhileIdle(c) {
        SegmentStarts(before, [Request(ip, at)], at, at);
        SameLevels(c, before, ip, at);
      }
    }
  }

  lemma {:induction false} SameCounts(c: Config, before: seq<Event>, during: seq<Event>, ip: string, ticked: bool)
    requires Unobservable(c, ticked) && Possible(before + during, ticked)
    ensures Count(c, After(c, map[], before, true), during, ip, true) == Count(c, After(c, map[], before, false), during, ip, false)
    decreases |during|
  {
    if |during| > 0 {
      var front, e := during[..|during| - 1], during[|during| - 1];
      var trace := before + during;
      PossibleFront(trace, ticked);
      assert trace[..|trace| - 1] == before + front && trace == (before + front) + [e];
      SameCounts(c, before, front, ip, ticked);
      TraceConcat(c, map[], before, front, ip, true);
      TraceConcat(c, map[], before, front, ip, false);
      if e.Request? && e.ip == ip {
        assert Possible((before + front) + [Request(ip, e.at)], ticked);
      }
    }
  }

  // --- Harmful cleanup -------------------------------------------------------------------------------

  const CALLER := "a"

  /** The whole tokens of a full bucket, and what is left when they are taken. */
  function Whole(c: Config): int {
    c.capacity.Floor
  }

  function Fraction(c: Config): real {
    c.capacity - Whole(c) as real
  }

  ghost predicate Harmful(c: Config) {
    Sensible(c) && !Harmless(c)
  }

  function Bit(b: bool): int {
    if b then 1 else 0
  }

  function When(b: bool, wait: real): real {
    if b then wait else 0.0
  }

  /** Two bursts on a full bucket, each drained and, if so planned, waited up to one more token after
      `wait`.  Between them the bucket idles just longer than it takes to be deleted at the second tick,
      from a first tick `gap` after its last use. */
  datatype Plan = Plan(first: bool, second: bool, wait: real, gap: real)

  function Return(p: Plan): real {
    When(p.first, p.wait) + p.gap + TICK
  }

  function End(p: Plan): real {
    Return(p) + When(p.second, p.wait)
  }

  function Gain(c: Config, p: Plan): int {
    2 * Whole(c) + Bit(p.first) + Bit(p.second)
  }

  /** The tick before the burst comes after the first half is done, the one after it not before the
      second half is. */
  ghost predicate Fits(c: Config, p: Plan) {
    && 0.0 <= p.wait <= TICK && p.gap > 0.0 && When(p.first, p.wait) + p.gap <= TICK
    && (p.first || p.second ==> p.wait * c.rate == 1.0 - Fraction(c))
  }

  lemma Quotient(a: real, b: real)
    requires b > 0.0
    ensures b * (a / b) == a && (a / b) * b == a
    ensures a >= 0.0 ==> a / b >= 0.0
    ensures a > 0.0 ==> a / b > 0.0
  {
  }

  /** What is refilled while a plan is carried out. */
  lemma PlanRefills(c: Config, p: Plan)
    requires Fits(c, p)
    ensures c.rate * End(p) == (Bit(p.first) + Bit(p.second)) as real * (1.0 - Fraction(c)) + c.rate * p.gap + c.rate * TICK
  {
    var w1, w2 := When(p.first, p.wait), When(p.second, p.wait);
    assert c.rate * (w1 + p.gap + TICK + w2) == c.rate * w1 + c.rate * p.gap + c.rate * TICK + c.rate * w2;
    assert c.rate * w1 == Bit(p.first) as real * (1.0 - Fraction(c));
    assert c.rate * w2 == Bit(p.second) as real * (1.0 - Fraction(c));
  }

  /** How much more a plan gets through than the bucket allows, but for the gap. */
  function Excess(c: Config, first: bool, second: bool): real {
    Whole(c) as real + (Bit(first) + Bit(second) - 1) as real * Fraction(c) - c.rate * TICK
  }

  lemma PlanExceeds(c: Config, p: Plan)
    requires Fits(c, p) && c.rate * p.gap < Excess(c, p.first, p.second)
    ensures !Obeys(c, Gain(c, p), End(p))
  {
    PlanRefills(c, p);
    if p.first && p.second {
    } else if p.first || p.second {
    }
  }

  /** A gap small enough. */
  function Gap(rate: real, room: real, excess: real): real
    requires rate > 0.0
  {
    Least(room, excess / (2.0 * rate))
  }

  lemma GapIsSmall(rate: real, room: real, excess: real)
    requires rate > 0.0 && room > 0.0 && excess > 0.0
    ensures 0.0 < Gap(rate, room, excess) <= room && rate * Gap(rate, room, excess) < excess
  {
    var half := excess / (2.0 * rate);
    Quotient(excess, 2.0 * rate);
    assert rate * half == excess / 2.0;
    assert rate * Gap(rate, room, excess) <= rate * half;
  }

  lemma PlanFor(c: Config, first: bool, second: bool, wait: real) returns (p: Plan)
    requires Sensible(c) && c.rate > 0.0 && Excess(c, first, second) > 0.0
    requires 0.0 <= wait <= TICK && When(first, wait) < TICK && (first || second ==> wait * c.rate == 1.0 - Fraction(c))
    ensures Fits(c, p) && !Obeys(c, Gain(c, p), End(p))
  {
    var room, excess := TICK - When(first, wait), Excess(c, first, second);
    GapIsSmall(c.rate, room, excess);
    p := Plan(first, second, wait, Gap(c.rate, room, excess));
    PlanExceeds(c, p);
  }

  lemma NoRefill(c: Config)
    requires Harmful(c) && c.rate == 0.0
    ensures var p := Plan(false, false, 0.0, 1.0); Fits(c, p) && !Obeys(c, Gain(c, p), End(p))
  {
    var p := Plan(false, false, 0.0, 1.0);
    assert c.rate * p.gap == 0.0;
    assert c.rate * TICK == 0.0;
    PlanExceeds(c, p);
  }

  /** Whether to wait for the last token depends on how long that takes and on what it brings. */
  lemma PlanExists(c: Config) returns (p: Plan)
    requires Harmful(c)
    ensures Fits(c, p) && !Obeys(c, Gain(c, p), End(p))
  {
    var missing := 1.0 - Fraction(c);
    if c.rate == 0.0 {
      NoRefill(c);
      p := Plan(false, false, 0.0, 1.0);
    } else if c.rate * TICK + Fraction(c) < Whole(c) as real {
      p := PlanFor(c, false, false, 0.0);
    } else {
      var wait := missing / c.rate;
      Quotient(missing, c.rate);
      WaitIsShort(c.rate, wait, missing);
      if wait < TICK {
        p := PlanFor(c, true, true, wait);
      } else {
        assert c.rate * TICK == missing;
        p := PlanFor(c, false, true, wait);
      }
    }
  }

  lemma WaitIsShort(rate: real, wait: real, missing: real)
    requires rate > 0.0 && wait * rate == missing && missing <= rate * TICK
    ensures wait <= TICK
  {
    if wait > TICK {
      LargerProduct(TICK, wait, rate);
    }
  }

  // A trace that gets more through than the bucket allows is built event by event.

  ghost function Only(b: Option<Bucket>): Buckets {
    if b.Some? then map[CALLER := b.value] else map[]
  }

  /** A trace until time `u` whose sweeps are the first `k` ticks of the ticker started at `start`. */
  ghost predicate Timed(trace: seq<Event>, start: real, k: nat, u: real) {
    Ordered(trace) && Within(trace, 0.0, u) && TickedFrom(trace, start) && Sweeps(trace) == k
  }

  /** Of its requests `n` are admitted, and in the end the bucket is `b`. */
  ghost predicate Yields(c: Config, trace: seq<Event>, n: int, b: Option<Bucket>) {
    Count(c, map[], trace, CALLER, true) == n && After(c, map[], trace, true) == Only(b)
  }

  ghost predicate Stands(c: Config, trace: seq<Event>, start: real, k: nat, u: real, n: int, b: Option<Bucket>) {
    Timed(trace, start, k, u) && Yields(c, trace, n, b)
  }

  lemma TimedNext(trace: seq<Event>, start: real, k: nat, u: real, e: Event, trace': seq<Event>)
    requires Timed(trace, start, k, u) && 0.0 <= u <= e.at && trace' == trace + [e]
    requires var last := start + k as real * TICK; if e.Sweep? then e.at == last + TICK else last <= e.at <= last + TICK
    ensures Timed(trace', start, if e.Sweep? then k + 1 else k, e.at)
  {
    assert trace'[..|trace'| - 1] == trace;
  }

  lemma YieldsNext(c: Config, trace: seq<Event>, n: int, b: Option<Bucket>, e: Event, b': Option<Bucket>, trace': seq<Event>)
    requires Yields(c, trace, n, b) && trace' == trace + [e] && Next(c, Only(b), e, true) == Only(b')
    ensures Yields(c, trace', n + (if Admits(c, Only(b), e, CALLER) then 1 else 0), b')
  {
    assert trace'[..|trace'| - 1] == trace;
  }

  lemma Asks(c: Config, trace: seq<Event>, start: real, k: nat, u: real, n: int, b: Option<Bucket>, at: real) returns (trace': seq<Event>)
    requires Stands(c, trace, start, k, u, n, b) && 0.0 <= u <= at
    requires start + k as real * TICK <= at <= start + k as real * TICK + TICK
    requires Level(c, b, at) >= 1.0
    ensures Stands(c, trace', start, k, at, n + 1, Some(Bucket(Level(c, b, at) - 1.0, at)))
  {
    var e := Request(CALLER, at);
    trace' := trace + [e];
    assert Find(Only(b), CALLER) == b;
    assert Take(c, Only(b), CALLER, at) == Only(Some(Bucket(Level(c, b, at) - 1.0, at)));
    TimedNext(trace, start, k, u, e, trace');
    YieldsNext(c, trace, n, b, e, Some(Bucket(Level(c, b, at) - 1.0, at)), trace');
  }

  function Kept(b: Option<Bucket>, at: real): Option<Bucket> {
    if b.Some? && at - b.value.lastRefilled > IDLE then None else b
  }

  lemma Ticks(c: Config, trace: seq<Event>, start: real, k: nat, u: real, n: int, b: Option<Bucket>, at: real) returns (trace': seq<Event>)
    requires Stands(c, trace, start, k, u, n, b) && 0.0 <= u <= at
    requires at == start + k as real * TICK + TICK
    ensures Stands(c, trace', start, k + 1, at, n, Kept(b, at))
  {
    var e := Sweep(at);
    trace' := trace + [e];
    assert Keep(Only(b), at) == Only(Kept(b, at));
    TimedNext(trace, start, k, u, e, trace');
    YieldsNext(c, trace, n, b, e, Kept(b, at), trace');
  }

  /** A full bucket is drained. */
  lemma Drains(c: Config, trace: seq<Event>, start: real, k: nat, u: real, n: int, at: real, j: nat) returns (trace': seq<Event>)
    requires Stands(c, trace, start, k, u, n, None) && 0.0 <= u <= at && 0 < j <= Whole(c)
    requires start + k as real * TICK <= at <= start + k as real * TICK + TICK
    ensures Stands(c, trace', start, k, at, n + j, Some(Bucket(c.capacity - j as real, at)))
  {
    if j == 1 {
      trace' := Asks(c, trace, start, k, u, n, None, at);
    } else {
      var before := Drains(c, trace, start, k, u, n, at, j - 1);
      var b := Bucket(c.capacity - (j - 1) as real, at);
      LevelNow(c, b);
      trace' := Asks(c, before, start, k, at, n + (j - 1), Some(b), at);
    }
  }

  lemma LevelAfter(c: Config, tokens: real, at: real, wait: real, refill: real)
    requires wait * c.rate == refill
    ensures Level(c, Some(Bucket(tokens, at)), at + wait) == Least(c.capacity, tokens + refill)
  {
    assert ((at + wait) - at) * c.rate == wait * c.rate;
  }

  /** A full bucket is drained and, if so planned, the token taken that is nearly there. */
  lemma Bursts(c: Config, trace: seq<Event>, start: real, k: nat, u: real, n: int, at: real, again: bool, wait: real, end: real, n': int)
    returns (trace': seq<Event>, b: Bucket)
    requires Stands(c, trace, start, k, u, n, None) && 0.0 <= u <= at && c.capacity >= 1.0
    requires 0.0 <= wait && start + k as real * TICK <= at && end <= start + k as real * TICK + TICK
    requires again ==> wait * c.rate == 1.0 - Fraction(c)
    requires end == at + When(again, wait) && n' == n + Whole(c) + Bit(again)
    ensures Stands(c, trace', start, k, end, n', Some(b))
    ensures b.lastRefilled == end
  {
    trace' := Drains(c, trace, start, k, u, n, at, Whole(c));
    b := Bucket(Fraction(c), at);
    if again {
      LevelAfter(c, Fraction(c), at, wait, 1.0 - Fraction(c));
      trace' := Asks(c, trace', start, k, at, n + Whole(c), Some(b), end);
      b := Bucket(Level(c, Some(b), end) - 1.0, end);
    }
  }

  lemma TwoTicks(c: Config, trace: seq<Event>, start: real, x: real, n: int, b: Bucket, mid: real, at: real) returns (trace': seq<Event>)
    requires Stands(c, trace, start, 0, x, n, Some(b)) && b.lastRefilled == x
    requires mid == start + TICK && at == mid + TICK && 0.0 <= x <= mid && x + IDLE < at
    ensures Stands(c, trace', start, 2, at, n, None)
  {
    var first := Ticks(c, trace, start, 0, x, n, Some(b), mid);
    trace' := Ticks(c, first, start, 1, mid, n, Kept(Some(b), mid), at);
  }

  lemma StandsAtStart(c: Config, start: real)
    ensures Stands(c, [], start, 0, 0.0, 0, None)
  {
  }

  /** A burst, the tick before the bucket has idled long enough, and the tick after. */
  lemma BurstForgotten(c: Config, again: bool, wait: real, x: real, start: real, mid: real, at: real, n: int) returns (trace: seq<Event>)
    requires c.capacity >= 1.0 && 0.0 <= wait && x == When(again, wait) && n == Whole(c) + Bit(again)
    requires mid == start + TICK && at == mid + TICK && start <= 0.0 && x <= mid && x + IDLE < at
    requires again ==> wait * c.rate == 1.0 - Fraction(c)
    ensures Stands(c, trace, start, 2, at, n, None)
  {
    StandsAtStart(c, start);
    var burst, b := Bursts(c, [], start, 0, 0.0, 0, 0.0, again, wait, x, n);
    trace := TwoTicks(c, burst, start, x, n, b, mid, at);
  }

  /** And another burst on a full bucket. */
  lemma TwoBursts(c: Config, p: Plan, at: real, end: real, n: int, gain: int) returns (trace: seq<Event>, b: Bucket)
    requires Harmful(c) && Fits(c, p)
    requires at == Return(p) && end == End(p) && n == Whole(c) + Bit(p.first) && gain == Gain(c, p)
    ensures Stands(c, trace, at - 2.0 * TICK, 2, end, gain, Some(b))
  {
    var start := at - 2.0 * TICK;
    var before := BurstForgotten(c, p.first, p.wait, When(p.first, p.wait), start, at - TICK, at, n);
    trace, b := Bursts(c, before, start, 2, at, n, at, p.second, p.wait, end, gain);
  }

  lemma LargerProduct(a: real, b: real, c: real)
    requires a < b && c > 0.0
    ensures a * c < b * c
  {
  }

  lemma WholeTrace(c: Config, trace: seq<Event>, ip: string, t: real, ticked: bool)
    requires RateBounded(c, true, ticked)
    requires Possible(trace, ticked) && Within(trace, 0.0, t) && 0.0 <= t
    ensures Obeys(c, Count(c, map[], trace, ip, true), t)
  {
    assert [] + trace == trace;
    assert After(c, map[], [], true) == map[];
  }

  /** When buckets do not fill up while they are idle, two bursts around two ticks of the cleanup loop
      get more through than the bucket allows. */
  lemma HarmfulExceeds(c: Config, ticked: bool)
    requires Harmful(c)
    ensures !RateBounded(c, true, ticked)
  {
    var p := PlanExists(c);
    var trace, b := TwoBursts(c, p, Return(p), End(p), Whole(c) + Bit(p.first), Gain(c, p));
    if RateBounded(c, true, ticked) {
      WholeTrace(c, trace, CALLER, End(p), ticked);
    }
  }

  lemma HarmlessIsBounded(c: Config, sweeping: bool, ticked: bool)
    requires Sensible(c) && (sweeping ==> Harmless(c))
    ensures RateBounded(c, sweeping, ticked)
  {
    forall before: seq<Event>, during: seq<Event>, ip, s: real, t: real
      | Possible(before + during, ticked) && Within(during, s, t) && s <= t
      ensures Obeys(c, Count(c, After(c, map[], before, sweeping), during, ip, sweeping), t - s)
    {
      SegmentBounded(c, before, during, ip, s, t, sweeping);
    }
  }

  /** The rate bound holds over every trace exactly when the cleanup does no harm, and it makes no
      difference whether sweeps may come at any time or only with the ticks of a ticker; without cleanup
      it always holds. */
  lemma RateBoundExactly(c: Config, ticked: bool)
    requires Sensible(c)
    ensures RateBounded(c, true, ticked) <==> Harmless(c)
    ensures RateBounded(c, false, ticked)
  {
    HarmlessIsBounded(c, false, ticked);
    if Harmless(c) {
      HarmlessIsBounded(c, true, ticked);
    } else {
      HarmfulExceeds(c, ticked);
    }
  }

  lemma UnobservableIsBounded(c: Config, ticked: bool)
    requires Sensible(c) && Unobservable(c, ticked)
    ensures RateBounded(c, true, ticked)
  {
    forall before: seq<Event>, during: seq<Event>, ip, s: real, t: real
      | Possible(before + during, ticked) && Within(during, s, t) && s <= t
      ensures Obeys(c, Count(c, After(c, map[], before, true), during, ip, true), t - s)
    {
      SameCounts(c, before, during, ip, ticked);
      SegmentBounded(c, before, during, ip, s, t, false);
    }
  }

  /** The cleanup loop is invisible to all callers exactly under the same condition. */
  lemma CleanupExactly(c: Config, ticked: bool)
    requires Sensible(c)
    ensures Unobservable(c, ticked) <==> Harmless(c)
  {
    RateBoundExactly(c, ticked);
    if Harmless(c) {
      HarmlessIsUnobservable(c, ticked);
    }
    if Unobservable(c, ticked) {
      UnobservableIsBounded(c, ticked);
    }
  }
}
