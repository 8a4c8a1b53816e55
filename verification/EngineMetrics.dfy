/** getMetrics also refills the token bucket.  With the rate left alone, that never shows. */
module EngineMetrics {
  import opened Events
  import opened RateLimit
  import opened EngineModel
  import opened EngineTiming

  /** Everything but the raw limiter fields is the same, and no later request can tell those apart. */
  ghost predicate Alike(e: Engine, f: Engine, clock: int) {
    && f == e.(lim := f.lim, hist := e.hist.(calls := f.hist.calls))
    && f.lim.rateLimitedRequests == e.lim.rateLimitedRequests
    && SameFrom(BucketOf(e.cfg, e.lim), BucketOf(f.cfg, f.lim), Seconds(clock))
    && RefilledBy(e, clock) && RefilledBy(f, clock)
  }

  /** Refilled in the past, and not overfull: what a clock that does not run backwards keeps. */
  predicate RefilledBy(e: Engine, clock: int) {
    e.lim.lastRefillTime <= clock && e.lim.availableTokens <= e.cfg.rateLimitBurst
  }

  function WithoutMetrics(acts: seq<Action>): seq<Action> {
    if acts == [] then []
    else if acts[0].Metrics? then WithoutMetrics(acts[1..])
    else [acts[0]] + WithoutMetrics(acts[1..])
  }

  lemma SameLater(a: Bucket, b: Bucket, clock: real, now: real)
    requires SameFrom(a, b, clock) && clock <= now
    requires a.tokens <= a.capacity && a.lastRefill <= clock && b.tokens <= b.capacity && b.lastRefill <= clock
    ensures SameFrom(a, b, now)
  {
    hide Earned;
    RefillTwice(a, clock, now);
    RefillTwice(b, clock, now);
  }

  lemma TakeAlike(c: Config, k: Limiter, l: Limiter, n: nat, now: int)
    requires SameFrom(BucketOf(c, k), BucketOf(c, l), Seconds(now)) && k.rateLimitedRequests == l.rateLimitedRequests
    ensures TakeTokens(c, k, n, now) == TakeTokens(c, l, n, now)
  {
    hide Earned;
  }

  lemma TakeRefills(c: Config, l: Limiter, n: nat, now: int)
    ensures TakeTokens(c, l, n, now).0.lastRefillTime == now
  {}

  /** The same engine with another limiter and another request history. */
  function Swap(e: Engine, l: Limiter, calls: seq<Call>): Engine {
    e.(lim := l, hist := e.hist.(calls := calls))
  }

  /** Timers, flushes, shutdowns and reconfigurations neither read nor touch what is swapped. */
  lemma SwapRest(e: Engine, l: Limiter, calls: seq<Call>, a: Action)
    requires Possible(e, a) && FixedRate(a) && !a.Single? && !a.Many? && !a.Metrics?
    ensures Step(Swap(e, l, calls), a) == Swap(Step(e, a), l, calls)
  {
    hide TakeTokens, RefillTokens, FillAll, Room, BatchCost;
  }

  /** An ingest call sees only the limiter's decision and its result. */
  lemma SwapIngest(e: Engine, l: Limiter, calls: seq<Call>, a: Action)
    requires Possible(e, a) && (a.Single? || a.Many?)
    requires var n := if a.Single? then 1 else BatchCost(|a.evs|);
             TakeTokens(e.cfg, e.lim, n, a.now) == TakeTokens(e.cfg, l, n, a.now)
    ensures var f, g := Step(e, a), Step(Swap(e, l, calls), a);
            g == Swap(f, f.lim, g.hist.calls) && f.lim.lastRefillTime == a.now
  {
    var n := if a.Single? then 1 else BatchCost(|a.evs|);
    TakeRefills(e.cfg, e.lim, n, a.now);
    hide TakeTokens, FillAll, Room, BatchCost, Fill;
  }

  lemma AlikeStep(e: Engine, f: Engine, clock: int, a: Action)
    requires Alike(e, f, clock) && Possible(e, a) && !a.Metrics? && FixedRate(a)
    requires clock <= TimeOf(a, clock)
    ensures Possible(f, a) && Alike(Step(e, a), Step(f, a), TimeOf(a, clock))
  {
    var now := TimeOf(a, clock);
    SecondsOrder(clock, now);
    SameLater(BucketOf(e.cfg, e.lim), BucketOf(f.cfg, f.lim), Seconds(clock), Seconds(now));
    assert f == Swap(e, f.lim, f.hist.calls);
    if a.Single? || a.Many? {
      var n := if a.Single? then 1 else BatchCost(|a.evs|);
      TakeAlike(e.cfg, e.lim, f.lim, n, now);
      SwapIngest(e, f.lim, f.hist.calls, a);
    } else {
      LimiterAlone(e, a);
      SwapRest(e, f.lim, f.hist.calls, a);
    }
    hide Step, Seconds;
  }

  lemma MetricsStep(e: Engine, f: Engine, clock: int, now: int)
    requires Alike(e, f, clock) && clock <= now
    ensures Alike(GetMetrics(e, now), f, now)
  {
    SecondsOrder(clock, now);
    SameLater(BucketOf(e.cfg, e.lim), BucketOf(f.cfg, f.lim), Seconds(clock), Seconds(now));
    RefillOnce(BucketOf(e.cfg, e.lim), Seconds(now));
  }

  lemma RefillOnce(b: Bucket, now: real)
    ensures Refill(Refill(b, now), now).tokens == Refill(b, now).tokens
  {}

  /** Removing every metrics read from a run gives a run with the same decisions: same accepted events,
      same flushes, same counters, same everything but the raw token fields, which answer every later
      request alike. */
  lemma {:induction false} MetricsAreInvisible(e: Engine, f: Engine, clock: int, acts: seq<Action>, t: Engine)
    returns (u: Engine)
    requires Alike(e, f, clock)
    requires Run(e, acts, t) && Timed(clock, acts)
    ensures Run(f, WithoutMetrics(acts), u) && Alike(t, u, LastTime(clock, acts))
    decreases |acts|
  {
    if acts == [] {
      u := f;
    } else {
      var a := acts[0];
      var now := TimeOf(a, clock);
      if a.Metrics? {
        MetricsStep(e, f, clock, now);
        hide Step, Alike, Possible;
        u := MetricsAreInvisible(Step(e, a), f, now, acts[1..], t);
      } else {
        AlikeStep(e, f, clock, a);
        hide Step, Alike, Possible;
        u := MetricsAreInvisible(Step(e, a), Step(f, a), now, acts[1..], t);
        assert ([a] + WithoutMetrics(acts[1..]))[1..] == WithoutMetrics(acts[1..]);
      }
    }
  }

  // ---- a read before a reconfiguration ----

  /** The tokens that a read at `m` pays under the old limits, and what the bucket has at `m` without
      the read, when the new limits pay for the same time. */
  function PaidOld(b: Bucket, m: real): real {
    Refill(b, m).tokens
  }

  function PaidNew(b: Bucket, rate': real, capacity': real, m: real): real {
    (if b.tokens > capacity' then capacity' else b.tokens) + Earned(rate', m - b.lastRefill)
  }

  /** A reconfiguration of a bucket: new limits, and no more tokens than the new capacity. */
  function Relimit(b: Bucket, rate': real, capacity': real): Bucket {
    Bucket(capacity', rate', if b.tokens > capacity' then capacity' else b.tokens, b.lastRefill)
  }

  /** Either way of paying fills the bucket, or they pay the same. */
  predicate NeverShows(b: Bucket, rate': real, capacity': real, m: real) {
    || (PaidOld(b, m) >= capacity' && PaidNew(b, rate', capacity', m) >= capacity')
    || PaidOld(b, m) == PaidNew(b, rate', capacity', m)
  }

  lemma RefillAtOnce(b: Bucket, m: real)
    ensures Refill(b, m).tokens == if b.tokens + Earned(b.rate, m - b.lastRefill) > b.capacity then b.capacity
                                   else b.tokens + Earned(b.rate, m - b.lastRefill)
    ensures Earned(b.rate, m - m) == 0.0
  {}

  /** A read at `m` before new limits is indistinguishable from `m` on exactly if it never shows. */
  lemma ReadThenRelimitIff(b: Bucket, rate': real, capacity': real, m: real)
    ensures SameFrom(Relimit(Refill(b, m), rate', capacity'), Relimit(b, rate', capacity'), m)
       <==> NeverShows(b, rate', capacity', m)
  {
    RefillAtOnce(Relimit(Refill(b, m), rate', capacity'), m);
    RefillAtOnce(Relimit(b, rate', capacity'), m);
    hide Earned;
  }

  lemma EarnedDiffers(rate: real, rate': real, elapsed: real)
    ensures Earned(rate, elapsed) == Earned(rate', elapsed) <==> elapsed == 0.0 || rate == rate'
  {
    if elapsed != 0.0 && rate * elapsed == rate' * elapsed {
      assert (rate - rate') * elapsed == 0.0;
    }
  }

  /** A change of the rate alone: a read shows unless no time had passed, the rate is the old one, or
      the bucket is full at `m` at either rate. */
  lemma RateChangeShowsUnless(b: Bucket, rate': real, m: real)
    requires b.tokens <= b.capacity && b.lastRefill <= m
    ensures NeverShows(b, rate', b.capacity, m)
       <==> || m == b.lastRefill || b.rate == rate'
            || (b.tokens + Earned(b.rate, m - b.lastRefill) >= b.capacity
                && b.tokens + Earned(rate', m - b.lastRefill) >= b.capacity)
  {
    EarnedDiffers(b.rate, rate', m - b.lastRefill);
    hide Earned;
  }

  /** A change of the burst alone.  At a rate that earns or keeps tokens, lowering it never shows, and
      raising it shows exactly if the read cut off tokens that the new burst would have kept.  At a rate
      that takes tokens away, a read shows exactly if the new burst cuts off tokens. */
  lemma BurstChangeShowsUnless(b: Bucket, capacity': real, m: real)
    requires b.tokens <= b.capacity
    ensures var earned := Earned(b.rate, m - b.lastRefill);
            && (earned >= 0.0 ==>
                  (NeverShows(b, b.rate, capacity', m)
                   <==> capacity' <= b.capacity || b.tokens + earned <= b.capacity))
            && (earned < 0.0 ==> (NeverShows(b, b.rate, capacity', m) <==> b.tokens <= capacity'))
  {
    hide Earned;
  }

  /** The condition on a reached state, an update and the time of the read. */
  predicate ReadNeverShows(e: Engine, u: Update, m: int) {
    var c := NewConfig(e.cfg, u);
    NeverShows(BucketOf(e.cfg, e.lim), c.rateLimitRps, c.rateLimitBurst, Seconds(m))
  }

  /** Exactly when a metrics read just before a reconfiguration can be told from no read: never if the
      condition holds; and if it does not, a second read at the same instant reports other tokens. */
  lemma ReadBeforeChangeIff(e: Engine, u: Update, m: int)
    requires e.lim.availableTokens <= e.cfg.rateLimitBurst && e.lim.lastRefillTime <= m
    ensures var read, skipped := Step(Step(e, Metrics(m)), Configure(u)), Step(e, Configure(u));
            && (Alike(read, skipped, m) <==> ReadNeverShows(e, u, m))
            && (GetMetrics(read, m).lim.availableTokens == GetMetrics(skipped, m).lim.availableTokens
                <==> ReadNeverShows(e, u, m))
  {
    var r, c := Step(e, Metrics(m)), NewConfig(e.cfg, u);
    ReadThenRelimitIff(BucketOf(e.cfg, e.lim), c.rateLimitRps, c.rateLimitBurst, Seconds(m));
    var read, skipped := Step(r, Configure(u)), Step(e, Configure(u));
    assert r.cfg == e.cfg;
    assert GetMetrics(read, m).lim.availableTokens == Refill(BucketOf(read.cfg, read.lim), Seconds(m)).tokens;
    assert GetMetrics(skipped, m).lim.availableTokens == Refill(BucketOf(skipped.cfg, skipped.lim), Seconds(m)).tokens;
    hide Step, NeverShows, Seconds, NewConfig, Refill, Relimit, GetMetrics;
  }

  /** In any run from start-up, a read before a reconfiguration that never shows can be left out: all
      that follows, without metrics reads, takes the same course. */
  lemma HarmlessRead(start: int, before: seq<Action>, e: Engine, u: Update, m: int, rest: seq<Action>, t: Engine)
    returns (v: Engine)
    requires Run(Boot(start), before, e) && e.lim.lastRefillTime <= m && ReadNeverShows(e, u, m)
    requires Run(Step(Step(e, Metrics(m)), Configure(u)), rest, t) && Timed(m, rest)
    ensures Run(Step(e, Configure(u)), WithoutMetrics(rest), v) && Alike(t, v, LastTime(m, rest))
  {
    TokensWithinBurst(Boot(start), before, e);
    ReadBeforeChangeIff(e, u, m);
    var read, skipped := Step(Step(e, Metrics(m)), Configure(u)), Step(e, Configure(u));
    hide Alike, Step, Run;
    v := MetricsAreInvisible(read, skipped, m, rest, t);
  }

  // ---- and it does show ----

  /** Half a token per second for a burst of one, then a whole token per second. */
  const HalfRate := Configure(Update(0, 0, 0, 0, 0.5, 1.0))

  const FullRate := Configure(Update(0, 0, 0, 0, 1.0, 0.0))

  function BurstOfOne(rps: real): Config { Config(32, 50000, 5000, 500, rps, 1.0) }

  /** The fields that decide the next single call. */
  predicate At(e: Engine, rps: real, tokens: real, last: int, accepted: nat) {
    && e.cfg == BurstOfOne(rps) && e.lim.availableTokens == tokens && e.lim.lastRefillTime == last
    && e.count.totalAccepted == accepted && |e.work.queue| < 50000
  }

  lemma HalfThenOne(ev: Event, d: Fresh)
    requires !IsInvalid(ev)
    ensures At(Step(Step(Boot(0), HalfRate), Single(ev, d, 0)), 0.5, 0.0, 0, 1)
  {
    assert Seconds(0) - Seconds(0) == 0.0;
  }

  lemma ReadHalf(e: Engine)
    requires At(e, 0.5, 0.0, 0, 1)
    ensures At(Step(e, Metrics(1000)), 0.5, 0.5, 1000, 1)
  {
    assert Seconds(1000) == 1.0 && Seconds(0) == 0.0;
  }

  lemma Quicken(e: Engine, tokens: real, last: int)
    requires At(e, 0.5, tokens, last, 1)
    ensures At(Step(e, FullRate), 1.0, tokens, last, 1)
  {
    hide Clamp;
  }

  lemma SingleAtOne(e: Engine, tokens: real, last: int, ev: Event, d: Fresh)
    requires At(e, 1.0, tokens, last, 1) && !IsInvalid(ev) && tokens <= 1.0
    ensures Step(e, Single(ev, d, 1000)).count.totalAccepted
         == if tokens + (Seconds(1000) - Seconds(last)) >= 1.0 then 2 else 1
  {
    hide Seconds;
    assert Earned(1.0, Seconds(1000) - Seconds(last)) == Seconds(1000) - Seconds(last);
  }

  /** Two runs from start-up that differ in one metrics read: with it, the second event is refused. */
  lemma MetricsShowAcrossRateChange() returns (acts: seq<Action>, t: Engine, u: Engine)
    ensures Run(Boot(0), acts, t) && Run(Boot(0), WithoutMetrics(acts), u)
    ensures t.count.totalAccepted == 1 && u.count.totalAccepted == 2
  {
    hide WithoutMetrics, Leads, Step, At, IsInvalid;
    var ev, d := TelemetryEvent("t", "s", "m", "0", "INFO"), Fresh("0", "t");
    var first, m, last := Single(ev, d, 0), Metrics(1000), Single(ev, d, 1000);
    assert !IsInvalid(ev) by { ValidEvent(ev); }
    HalfThenOne(ev, d);
    var half := Step(Boot(0), HalfRate);
    var one := Step(half, first);
    var read := Step(one, m);
    ReadHalf(one);
    Quicken(one, 0.0, 0);
    Quicken(read, 0.5, 1000);
    SingleAtOne(Step(read, FullRate), 0.5, 1000, ev, d);
    SingleAtOne(Step(one, FullRate), 0.0, 0, ev, d);
    assert Seconds(1000) == 1.0 && Seconds(0) == 0.0;
    t, u := Step(Step(read, FullRate), last), Step(Step(one, FullRate), last);
    acts := [HalfRate] + ([first] + ([m] + ([FullRate] + ([last] + []))));
    RunNil(t);
    RunCons(Step(read, FullRate), last, [], t);
    RunCons(read, FullRate, [last] + [], t);
    RunCons(one, m, [FullRate] + ([last] + []), t);
    RunCons(half, first, [m] + ([FullRate] + ([last] + [])), t);
    RunCons(Boot(0), HalfRate, [first] + ([m] + ([FullRate] + ([last] + []))), t);
    RunNil(u);
    RunCons(Step(one, FullRate), last, [], u);
    RunCons(one, FullRate, [last] + [], u);
    RunCons(half, first, [FullRate] + ([last] + []), u);
    RunCons(Boot(0), HalfRate, [first] + ([FullRate] + ([last] + [])), u);
    Skips([HalfRate, first], m, [FullRate, last]);
    assert acts == [HalfRate, first] + [m] + [FullRate, last];
    assert [HalfRate, first] + [FullRate, last] == [HalfRate] + ([first] + ([FullRate] + ([last] + [])));
  }

  lemma ValidEvent(ev: Event)
    requires ev.service != "" && ev.message != ""
    ensures !IsInvalid(ev)
  {}

  lemma {:induction false} NothingToSkip(acts: seq<Action>)
    requires forall i :: 0 <= i < |acts| ==> !acts[i].Metrics?
    ensures WithoutMetrics(acts) == acts
  {
    if acts != [] { NothingToSkip(acts[1..]); }
  }

  lemma {:induction false} Skips(a: seq<Action>, m: Action, b: seq<Action>)
    requires m.Metrics? && (forall i :: 0 <= i < |a| ==> !a[i].Metrics?) && forall i :: 0 <= i < |b| ==> !b[i].Metrics?
    ensures WithoutMetrics(a + [m] + b) == a + b
  {
    if a == [] {
      assert (a + [m] + b)[1..] == b;
      NothingToSkip(b);
    } else {
      assert (a + [m] + b)[1..] == a[1..] + [m] + b;
      Skips(a[1..], m, b);
    }
  }
}
