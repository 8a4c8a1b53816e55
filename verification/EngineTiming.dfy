/** Bounds of the event loop in time: how many events the limiter lets in, and how long an event may
    stay in the batch buffer. */
module EngineTiming {
  import opened RateLimit
  import opened EngineModel

  /** The time an action reads, if it reads the clock. */
  function TimeOf(a: Action, clock: int): int {
    match a
    case WorkerTick(now, _) => now case FlushTick(now, _) => now case Single(_, _, now) => now
    case Many(_, _, now) => now case Metrics(now) => now case Shutdown(now, _) => now
    case _ => clock
  }

  /** The clock never runs backwards. */
  ghost predicate ClockRuns(clock: int, acts: seq<Action>)
    decreases |acts|
  {
    acts != [] ==> clock <= TimeOf(acts[0], clock) && ClockRuns(TimeOf(acts[0], clock), acts[1..])
  }

  /** The clock never runs backwards, and the rate limit is not reconfigured. */
  ghost predicate Timed(clock: int, acts: seq<Action>) {
    ClockRuns(clock, acts) && forall i :: 0 <= i < |acts| ==> FixedRate(acts[i])
  }

  predicate FixedRate(a: Action) {
    a.Configure? ==> a.update.rateLimitRps == 0.0 && a.update.rateLimitBurst == 0.0
  }

  /** The clock after a run. */
  function LastTime(clock: int, acts: seq<Action>): int
    decreases |acts|
  {
    if acts == [] then clock else LastTime(TimeOf(acts[0], clock), acts[1..])
  }

  // ---- the event rate ----

  function EventsIn(adm: seq<Admission>, from: int, to: int): nat {
    if adm == [] then 0
    else
      var x := adm[|adm| - 1];
      EventsIn(adm[..|adm| - 1], from, to) + (if from <= x.time <= to then x.events else 0)
  }

  /** The same bucket with no more tokens. */
  predicate AtMost(x: Bucket, y: Bucket) {
    x == y.(tokens := x.tokens) && x.tokens <= y.tokens
  }

  /** The limiter holds no more than a bucket that was full when recording began; metrics reads are
      requests for nothing. */
  ghost predicate Limited(e: Engine, origin: Bucket, clock: int) {
    && AtMost(BucketOf(e.cfg, e.lim), Replay(origin, e.hist.calls))
    && Conforms(origin, e.hist.calls) && InOrder(e.hist.calls)
    && (forall i :: 0 <= i < |e.hist.calls| ==> e.hist.calls[i].time <= Seconds(clock))
  }

  /** Fifty events cost at least one token. */
  ghost predicate PaidFor(h: Hist, from: int, to: int) {
    EventsIn(h.admissions, from, to) as real <= 50.0 * AdmittedIn(h.calls, Seconds(from), Seconds(to))
  }

  lemma SecondsOrder(a: int, b: int)
    ensures a <= b <==> Seconds(a) <= Seconds(b)
  {}

  /** One request appended to a conforming history, allowed or not. */
  lemma CallSnoc(origin: Bucket, log: seq<Call>, n: real, now: real, ok: bool, clock: real)
    requires origin.tokens == origin.capacity && Conforms(origin, log) && InOrder(log) && clock <= now
    requires forall i :: 0 <= i < |log| ==> log[i].time <= clock
    requires ok ==> Allows(Replay(origin, log), n, now)
    ensures Conforms(origin, log + [Call(now, n, ok)]) && InOrder(log + [Call(now, n, ok)])
    ensures forall i :: 0 <= i < |log + [Call(now, n, ok)]| ==> (log + [Call(now, n, ok)])[i].time <= now
  {
    AllowNExact(origin, log, n, now);
    hide Admissible, Allows, Replay;
    var all := log + [Call(now, n, ok)];
    assert all[..|log|] == log;
    assert forall i :: 0 <= i < |log| ==> all[..i] == log[..i];
  }

  /** What a request or a refill does to the fields is what it does to the bucket. */
  lemma TakeIsApply(c: Config, l: Limiter, n: nat, now: int)
    ensures var (l', ok) := TakeTokens(c, l, n, now);
            && (ok <==> Allows(BucketOf(c, l), n as real, Seconds(now)))
            && BucketOf(c, l') == Apply(BucketOf(c, l), Call(Seconds(now), n as real, ok))
  {
    hide Earned;
  }

  lemma RefillIsApply(c: Config, l: Limiter, now: int)
    ensures BucketOf(c, RefillTokens(c, l, now)) == Apply(BucketOf(c, l), Call(Seconds(now), 0.0, false))
  {
    hide Earned;
  }

  /** An ingest call that took `cost` tokens for at most 50 * cost events, or took none for none. */
  lemma AdmitTimed(
      e: Engine, origin: Bucket, clock: int, cost: nat, evs: seq<Event>, lost: nat, now: int, from: int, to: int)
    requires origin.tokens == origin.capacity && Limited(e, origin, clock) && PaidFor(e.hist, from, to) && clock <= now
    requires (TakeTokens(e.cfg, e.lim, cost, now).1 && |evs| <= 50 * cost) || evs == []
    ensures var f := Admit(e, cost, evs, lost, now);
            Limited(f, origin, now) && PaidFor(f.hist, from, to)
  {
    var f := Admit(e, cost, evs, lost, now);
    var ok := TakeTokens(e.cfg, e.lim, cost, now).1;
    var call := Call(Seconds(now), cost as real, ok);
    TakeIsApply(e.cfg, e.lim, cost, now);
    SecondsOrder(clock, now);
    CallSnoc(origin, e.hist.calls, cost as real, Seconds(now), ok, Seconds(clock));
    ReplaySnoc(origin, e.hist.calls, call);
    AdmittedInSnoc(e.hist.calls, call, Seconds(from), Seconds(to));
    SecondsOrder(from, now);
    SecondsOrder(now, to);
    hide TakeTokens, Conforms, InOrder, Replay, Apply, Allows, EventsIn, AdmittedIn, Seconds;
  }

  lemma BatchCostCovers(n: nat)
    ensures n <= 50 * BatchCost(n) && BatchCost(n) >= 1
  {}

  lemma LimiterAlone(e: Engine, a: Action)
    requires Possible(e, a) && FixedRate(a) && !a.Single? && !a.Many? && !a.Metrics?
    ensures var f := Step(e, a);
            && f.lim == e.lim
            && f.cfg.rateLimitRps == e.cfg.rateLimitRps && f.cfg.rateLimitBurst == e.cfg.rateLimitBurst
            && f.hist.calls == e.hist.calls && f.hist.admissions == e.hist.admissions
  {
    hide TakeTokens, RefillTokens, FillAll, Room, BatchCost;
  }

  lemma MetricsTimed(e: Engine, origin: Bucket, clock: int, now: int, from: int, to: int)
    requires origin.tokens == origin.capacity && Limited(e, origin, clock) && PaidFor(e.hist, from, to) && clock <= now
    ensures Limited(GetMetrics(e, now), origin, now) && PaidFor(GetMetrics(e, now).hist, from, to)
  {
    var call := Call(Seconds(now), 0.0, false);
    RefillIsApply(e.cfg, e.lim, now);
    SecondsOrder(clock, now);
    CallSnoc(origin, e.hist.calls, 0.0, Seconds(now), false, Seconds(clock));
    ReplaySnoc(origin, e.hist.calls, call);
    AdmittedInSnoc(e.hist.calls, call, Seconds(from), Seconds(to));
    hide RefillTokens, Conforms, InOrder, Replay, Apply, EventsIn, AdmittedIn, Seconds;
  }

  lemma RateStep(e: Engine, origin: Bucket, clock: int, a: Action, from: int, to: int)
    requires origin.tokens == origin.capacity && Limited(e, origin, clock) && PaidFor(e.hist, from, to)
    requires Possible(e, a) && FixedRate(a) && clock <= TimeOf(a, clock)
    ensures Limited(Step(e, a), origin, TimeOf(a, clock)) && PaidFor(Step(e, a).hist, from, to)
  {
    hide TakeTokens, BatchCost, FillAll, PaidFor, Admit, Replay, Conforms, InOrder, Tick, BatchTick, SimulateShutdown;
    match a
    case Single(ev, f, now) =>
      var ok := TakeTokens(e.cfg, e.lim, 1, now).1;
      if ok { AdmitTimed(e, origin, clock, 1, [Fill(ev, f)], 0, now, from, to); }
      AdmitTimed(e, origin, clock, 1, [], 0, now, from, to);
      AdmitTimed(e, origin, clock, 1, [], 1, now, from, to);
    case Many(evs, fs, now) =>
      var k := Room(e.cfg, e.work, |evs|);
      BatchCostCovers(|evs|);
      if TakeTokens(e.cfg, e.lim, BatchCost(|evs|), now).1 {
        AdmitTimed(e, origin, clock, BatchCost(|evs|), FillAll(evs, fs)[..k], |evs| - k, now, from, to);
      } else {
        AdmitTimed(e, origin, clock, BatchCost(|evs|), [], 0, now, from, to);
      }
    case Metrics(now) => MetricsTimed(e, origin, clock, now, from, to);
    case _ =>
      LimiterAlone(e, a);
      PaidSame(e.hist, Step(e, a).hist, from, to);
  }

  lemma PaidSame(h: Hist, h': Hist, from: int, to: int)
    requires PaidFor(h, from, to) && h'.calls == h.calls && h'.admissions == h.admissions
    ensures PaidFor(h', from, to)
  {}

  lemma {:induction false} RateRun(
      e: Engine, origin: Bucket, clock: int, acts: seq<Action>, f: Engine, from: int, to: int)
    requires origin.tokens == origin.capacity && Limited(e, origin, clock) && PaidFor(e.hist, from, to)
    requires Run(e, acts, f) && Timed(clock, acts)
    ensures PaidFor(f.hist, from, to) && Conforms(origin, f.hist.calls) && InOrder(f.hist.calls)
    decreases |acts|
  {
    hide PaidFor, Conforms, InOrder, Replay, Step, Possible, BucketOf;
    if acts != [] {
      RateStep(e, origin, clock, acts[0], from, to);
      hide Limited;
      RateRun(Step(e, acts[0]), origin, TimeOf(acts[0], clock), acts[1..], f, from, to);
    }
  }

  /** No reconfiguration leaves more tokens than the burst. */
  lemma {:induction false} TokensWithinBurst(e: Engine, acts: seq<Action>, f: Engine)
    requires e.lim.availableTokens <= e.cfg.rateLimitBurst && Run(e, acts, f)
    ensures f.lim.availableTokens <= f.cfg.rateLimitBurst
    decreases |acts|
  {
    if acts != [] {
      TokensStep(e, acts[0]);
      hide Step, Possible;
      TokensWithinBurst(Step(e, acts[0]), acts[1..], f);
    }
  }

  lemma TokensStep(e: Engine, a: Action)
    requires e.lim.availableTokens <= e.cfg.rateLimitBurst && Possible(e, a)
    ensures var f := Step(e, a); f.lim.availableTokens <= f.cfg.rateLimitBurst
  {
    hide Earned, TriggerFlush, FillAll, Room;
  }

  /** Start recording limiter requests and admissions now. */
  function Recording(e: Engine): Engine {
    e.(hist := e.hist.(calls := [], admissions := []))
  }

  /** The end-to-end rate.  Take any state that any run, with any reconfigurations, has led to.  From
      there on, while the clock does not run backwards and the rate limit is left alone, single and
      batch calls together put at most 50 * (burst + rps * T) events into the queue in any window of T
      seconds, whatever metrics reads, ticks, shutdowns and other reconfigurations happen. */
  lemma EventRateBound(
      start: int, before: seq<Action>, e: Engine, clock: int, acts: seq<Action>, f: Engine, from: int, to: int)
    requires Run(Boot(start), before, e) && Run(Recording(e), acts, f) && Timed(clock, acts) && from <= to
    requires e.cfg.rateLimitBurst >= 0.0 && e.cfg.rateLimitRps >= 0.0
    ensures EventsIn(f.hist.admissions, from, to) as real
         <= 50.0 * (e.cfg.rateLimitBurst + Earned(e.cfg.rateLimitRps, Seconds(to - from)))
  {
    TokensWithinBurst(Boot(start), before, e);
    var b := BucketOf(e.cfg, e.lim);
    var origin := b.(tokens := b.capacity);
    hide Run, Earned, EventsIn, Timed;
    RateRun(Recording(e), origin, clock, acts, f, from, to);
    SecondsOrder(from, to);
    WindowBound(origin, f.hist.calls, Seconds(from), Seconds(to));
    hide Conforms, InOrder, AdmittedIn;
    assert Seconds(to) - Seconds(from) == Seconds(to - from);
  }

  /** As started: at most 50 * (20000 + 10000 * T) events in any T seconds. */
  lemma DefaultEventRate(start: int, acts: seq<Action>, f: Engine, from: int, to: int)
    requires Run(Boot(start), acts, f) && Timed(start, acts) && from <= to
    ensures EventsIn(f.hist.admissions, from, to) as real <= 50.0 * (20000.0 + 10000.0 * Seconds(to - from))
  {
    RunNil(Boot(start));
    hide Run, EventsIn, Timed, Seconds;
    EventRateBound(start, [], Boot(start), start, acts, f, from, to);
  }

  /** And no less: the first call gets up to 20000 tokens, and once they are gone, a second brings 10000. */
  lemma DefaultTokens(start: int, n: nat)
    ensures var c, l := Boot(start).cfg, Boot(start).lim;
            && (TakeTokens(c, l, n, start).1 <==> n <= 20000)
            && (TakeTokens(c, TakeTokens(c, l, 20000, start).0, n, start + 1000).1 <==> n <= 10000)
  {
    assert Seconds(start) - Seconds(start) == 0.0 && Seconds(start + 1000) - Seconds(start) == 1.0;
    hide Seconds;
  }

  // ---- the limiter is exact ----

  lemma LimiterStep(e: Engine, origin: Bucket, a: Action)
    requires BucketOf(e.cfg, e.lim) == Replay(origin, e.hist.calls) && Possible(e, a) && FixedRate(a)
    ensures BucketOf(Step(e, a).cfg, Step(e, a).lim) == Replay(origin, Step(e, a).hist.calls)
  {
    hide Replay, TakeTokens, RefillTokens, FillAll, Room, BatchCost, SingleStatus, Apply, Allows;
    match a
    case Single(_, _, now) => TakeIsLogged(e, origin, 1, now);
    case Many(evs, _, now) => TakeIsLogged(e, origin, BatchCost(|evs|), now);
    case Metrics(now) =>
      RefillIsApply(e.cfg, e.lim, now);
      ReplaySnoc(origin, e.hist.calls, Call(Seconds(now), 0.0, false));
    case _ =>
      LimiterAlone(e, a);
  }

  lemma TakeIsLogged(e: Engine, origin: Bucket, n: nat, now: int)
    requires BucketOf(e.cfg, e.lim) == Replay(origin, e.hist.calls)
    ensures var (l, ok) := TakeTokens(e.cfg, e.lim, n, now);
            && BucketOf(e.cfg, l) == Replay(origin, e.hist.calls + [Call(Seconds(now), n as real, ok)])
  {
    hide Replay, TakeTokens, Apply, Allows;
    TakeIsApply(e.cfg, e.lim, n, now);
    ReplaySnoc(origin, e.hist.calls, Call(Seconds(now), n as real, TakeTokens(e.cfg, e.lim, n, now).1));
  }

  lemma {:induction false} LimiterRun(e: Engine, origin: Bucket, acts: seq<Action>, f: Engine)
    requires BucketOf(e.cfg, e.lim) == Replay(origin, e.hist.calls) && Run(e, acts, f)
    requires forall i :: 0 <= i < |acts| ==> FixedRate(acts[i])
    ensures BucketOf(f.cfg, f.lim) == Replay(origin, f.hist.calls)
    decreases |acts|
  {
    hide Replay, BucketOf, Step, Possible, FixedRate;
    if acts != [] {
      LimiterStep(e, origin, acts[0]);
      LimiterRun(Step(e, acts[0]), origin, acts[1..], f);
    }
  }

  /** The limiter is exact from any state that any run, with any reconfigurations, has led to.  While
      the limits are left alone from there, a call for `n` tokens passes if and only if every window
      over the calls and metrics reads since then has room for it: the window from that state grants the
      tokens then left, any later one a full burst.  Whatever the clock does. */
  lemma LimiterExact(start: int, before: seq<Action>, e: Engine, acts: seq<Action>, f: Engine, n: nat, now: int)
    requires Run(Boot(start), before, e) && Run(Recording(e), acts, f)
    requires forall i :: 0 <= i < |acts| ==> FixedRate(acts[i])
    ensures TakeTokens(f.cfg, f.lim, n, now).1
       <==> Admissible(BucketOf(e.cfg, e.lim), f.hist.calls, n as real, Seconds(now))
  {
    TokensWithinBurst(Boot(start), before, e);
    var origin := BucketOf(e.cfg, e.lim);
    assert Replay(origin, []) == origin;
    hide Run, Replay, TakeTokens, Admissible, Allows, FixedRate;
    LimiterRun(Recording(e), origin, acts, f);
    TakeIsApply(f.cfg, f.lim, n, now);
    AllowNExact(origin, f.hist.calls, n as real, Seconds(now));
  }
}
