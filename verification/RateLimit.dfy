/** The token bucket of go-engine/internal/ratelimit/token_bucket.go.

    A bucket refills lazily: it stores one number and one timestamp.  The specification looks at
    the whole request history instead.  Every past request, and the creation of the bucket, is a
    possible start of a window, and each window has a slack: what the capacity and the refill since
    that start still leave after the tokens taken in the window.  The theorems say that the stored
    number is the least slack, so a request passes exactly when no window objects. */
module RateLimit {

  datatype Bucket = Bucket(capacity: real, rate: real, tokens: real, lastRefill: real)

  /** A recorded request for `n` tokens, with the decision taken. */
  datatype Call = Call(time: real, n: real, admitted: bool)

  /** Tokens earned over `elapsed` seconds. */
  function Earned(rate: real, elapsed: real): real {
    rate * elapsed
  }

  lemma EarnedAdds(rate: real, x: real, y: real)
    ensures Earned(rate, x + y) == Earned(rate, x) + Earned(rate, y)
  {}

  lemma EarnedGrows(rate: real, x: real, y: real)
    requires rate >= 0.0 && x <= y
    ensures Earned(rate, x) <= Earned(rate, y) && Earned(rate, y - x) >= 0.0
  {
    assert rate * (y - x) >= 0.0;
  }

  function NewBucket(rate: real, capacity: real, now: real): Bucket {
    Bucket(capacity, rate, capacity, now)
  }

  function Refill(b: Bucket, now: real): Bucket {
    var raised := b.tokens + Earned(b.rate, now - b.lastRefill);
    b.(tokens := if raised > b.capacity then b.capacity else raised, lastRefill := now)
  }

  predicate Allows(b: Bucket, n: real, now: real) {
    Refill(b, now).tokens >= n
  }

  /** The bucket after a request whose decision is `c.admitted`, whoever took that decision. */
  function Apply(b: Bucket, c: Call): Bucket {
    var r := Refill(b, c.time);
    r.(tokens := if c.admitted then r.tokens - c.n else r.tokens)
  }

  function Replay(b: Bucket, log: seq<Call>): (r: Bucket)
    ensures r.capacity == b.capacity && r.rate == b.rate
  {
    if log == [] then b else Apply(Replay(b, log[..|log| - 1]), log[|log| - 1])
  }

  lemma ReplaySnoc(b: Bucket, log: seq<Call>, call: Call)
    ensures Replay(b, log + [call]) == Apply(Replay(b, log), call)
  {
    assert (log + [call])[..|log|] == log;
  }

  // ---- windows over the history ----

  function Admitted(log: seq<Call>): real {
    if log == [] then 0.0
    else Admitted(log[..|log| - 1]) + (if log[|log| - 1].admitted then log[|log| - 1].n else 0.0)
  }

  /** Window starts: 0 is the creation of the bucket, `i > 0` is request `i - 1` itself. */
  function StartTime(created: real, log: seq<Call>, i: nat): real
    requires i <= |log|
  {
    if i == 0 then created else log[i - 1].time
  }

  function Since(log: seq<Call>, i: nat): seq<Call>
    requires i <= |log|
  {
    if i == 0 then log else log[i - 1..]
  }

  /** What the window grants at its start: the tokens then in the bucket, or else a full bucket. */
  function Grant(b: Bucket, i: nat): real { if i == 0 then b.tokens else b.capacity }

  function Slack(b: Bucket, log: seq<Call>, i: nat, now: real): real
    requires i <= |log|
  {
    Grant(b, i) + Earned(b.rate, now - StartTime(b.lastRefill, log, i)) - Admitted(Since(log, i))
  }

  /** Tokens taken since each start, plus `n`, stay within the window's grant + rate * length: no
      window, including the one that starts now, objects to `n` more tokens. */
  ghost predicate Admissible(b: Bucket, log: seq<Call>, n: real, now: real) {
    n <= b.capacity && forall i :: 0 <= i <= |log| ==> n <= Slack(b, log, i, now)
  }

  lemma {:induction false} SlackAfter(b: Bucket, log: seq<Call>, c: Call, i: nat, now: real)
    requires i <= |log|
    ensures Slack(b, log + [c], i, now)
         == Slack(b, log, i, c.time) + Earned(b.rate, now - c.time) - (if c.admitted then c.n else 0.0)
  {
    hide Earned;
    var all, s := log + [c], Since(log, i);
    assert Since(all, i) == s + [c];
    assert (s + [c])[..|s|] == s;
    var start := StartTime(b.lastRefill, log, i);
    assert start == StartTime(b.lastRefill, all, i);
    EarnedAdds(b.rate, now - c.time, c.time - start);
    assert (now - c.time) + (c.time - start) == now - start;
  }

  lemma SlackAtLast(b: Bucket, log: seq<Call>, c: Call, now: real)
    ensures Slack(b, log + [c], |log| + 1, now)
         == b.capacity + Earned(b.rate, now - c.time) - (if c.admitted then c.n else 0.0)
  {
    hide Earned;
    assert Since(log + [c], |log| + 1) == [c];
    assert Admitted([c][..0]) == 0.0;
  }

  lemma SlackAtStart(b: Bucket, now: real)
    ensures Slack(b, [], 0, now) == b.tokens + Earned(b.rate, now - b.lastRefill) && Replay(b, []) == b
  {}

  lemma RefillAfter(b: Bucket, c: Call, now: real)
    ensures var left := Refill(b, c.time).tokens - (if c.admitted then c.n else 0.0);
            var raised := left + Earned(b.rate, now - c.time);
            Refill(Apply(b, c), now).tokens == if raised > b.capacity then b.capacity else raised
  {
    hide Earned;
  }

  /** The one stored number is the minimum over the capacity and the slacks of all windows.
      Neither the signs of the rate and the requests nor the order of the times matter. */
  lemma {:induction false} StoredTokensAreLeastSlack(b: Bucket, log: seq<Call>, now: real)
    requires b.tokens <= b.capacity
    ensures var stored := Refill(Replay(b, log), now).tokens;
            && stored <= b.capacity
            && (forall i :: 0 <= i <= |log| ==> stored <= Slack(b, log, i, now))
            && (stored == b.capacity || exists i :: 0 <= i <= |log| && stored == Slack(b, log, i, now))
    decreases |log|
  {
    hide Earned;
    if log == [] {
      SlackAtStart(b, now);
    } else {
      hide Slack, Replay;
      var k := |log| - 1;
      var past, c := log[..k], log[k];
      assert log == past + [c];
      StoredTokensAreLeastSlack(b, past, c.time);
      var taken := if c.admitted then c.n else 0.0;
      var before := Refill(Replay(b, past), c.time).tokens;
      var gain := Earned(b.rate, now - c.time);
      ReplaySnoc(b, past, c);
      RefillAfter(Replay(b, past), c, now);
      assert Refill(Replay(b, log), now).tokens
          == if before - taken + gain > b.capacity then b.capacity else before - taken + gain;
      SlackAtLast(b, past, c, now);
      forall i | 0 <= i <= |log| ensures before - taken + gain <= Slack(b, log, i, now) {
        if i <= k { SlackAfter(b, past, c, i, now); }
      }
      if before == b.capacity {
        assert before - taken + gain == Slack(b, log, k + 1, now);
      } else {
        var i :| 0 <= i <= k && before == Slack(b, past, i, c.time);
        SlackAfter(b, past, c, i, now);
        assert before - taken + gain == Slack(b, log, i, now);
      }
    }
  }

  /** The lazy test is exact: it passes if and only if every window of the history allows it. */
  lemma {:induction false} AllowNExact(b: Bucket, log: seq<Call>, n: real, now: real)
    requires b.tokens <= b.capacity
    ensures Admissible(b, log, n, now) <==> Allows(Replay(b, log), n, now)
  {
    hide Earned, Slack, Replay;
    StoredTokensAreLeastSlack(b, log, now);
  }

  // ---- real-time windows ----

  ghost predicate InOrder(log: seq<Call>) {
    forall i, j :: 0 <= i <= j < |log| ==> log[i].time <= log[j].time
  }

  /** Nobody was admitted against the window rule; what the bucket itself guarantees. */
  ghost predicate Conforms(b: Bucket, log: seq<Call>) {
    forall i :: 0 <= i < |log| && log[i].admitted ==> Admissible(b, log[..i], log[i].n, log[i].time)
  }

  /** Every decision is the one the bucket takes. */
  ghost predicate Greedy(b: Bucket, log: seq<Call>) {
    forall i :: 0 <= i < |log| ==> (log[i].admitted <==> Admissible(b, log[..i], log[i].n, log[i].time))
  }

  predicate In(t: real, from: real, to: real) { from <= t <= to }

  function AdmittedIn(log: seq<Call>, from: real, to: real): real {
    if log == [] then 0.0
    else
      var c := log[|log| - 1];
      AdmittedIn(log[..|log| - 1], from, to) + (if c.admitted && In(c.time, from, to) then c.n else 0.0)
  }

  lemma AdmittedInSnoc(log: seq<Call>, call: Call, from: real, to: real)
    ensures AdmittedIn(log + [call], from, to)
         == AdmittedIn(log, from, to) + (if call.admitted && In(call.time, from, to) then call.n else 0.0)
  {
    assert (log + [call])[..|log|] == log;
  }

  lemma {:induction false} NothingBefore(log: seq<Call>, from: real, to: real)
    requires forall i :: 0 <= i < |log| ==> log[i].time < from
    ensures AdmittedIn(log, from, to) == 0.0
    decreases |log|
  {
    if log != [] { NothingBefore(log[..|log| - 1], from, to); }
  }

  /** In an ordered history that ends inside the window, the window is a suffix. */
  lemma {:induction false} WindowIsSuffix(log: seq<Call>, from: real, to: real) returns (i: nat)
    requires InOrder(log)
    requires log != [] ==> log[|log| - 1].time <= to
    ensures i <= |log| && AdmittedIn(log, from, to) == Admitted(log[i..])
    ensures i < |log| ==> log[i].time >= from
    decreases |log|
  {
    if log == [] || log[|log| - 1].time < from {
      NothingBefore(log, from, to);
      i := |log|;
    } else {
      var k := |log| - 1;
      i := WindowIsSuffix(log[..k], from, to);
      assert log[i..][..k - i] == log[..k][i..];
      assert log[i..][|log[i..]| - 1] == log[k];
    }
  }

  /** Any conforming history stays within capacity + rate * T in every window of length T. */
  lemma {:induction false} WindowBound(b: Bucket, log: seq<Call>, from: real, to: real)
    requires b.capacity >= 0.0 && b.rate >= 0.0 && from <= to
    requires InOrder(log) && Conforms(b, log)
    ensures AdmittedIn(log, from, to) <= b.capacity + Earned(b.rate, to - from)
    decreases |log|
  {
    hide Earned;
    EarnedGrows(b.rate, 0.0, to - from);
    if log != [] {
      var k := |log| - 1;
      var past, c := log[..k], log[k];
      assert forall i :: 0 <= i < k ==> past[..i] == log[..i];
      if !(c.admitted && from <= c.time <= to) {
        WindowBound(b, past, from, to);
      } else {
        var i := WindowIsSuffix(past, from, to);
        assert Admissible(b, past, c.n, c.time);
        if i < k {
          assert Since(past, i + 1) == past[i..];
          assert c.n <= Slack(b, past, i + 1, c.time);
          EarnedGrows(b.rate, c.time - past[i].time, to - from);
        }
      }
    }
  }

  /** The plain meaning of the limit: in every window of real time at most capacity + rate * length. */
  ghost predicate Within(b: Bucket, log: seq<Call>) {
    forall from, to :: from <= to ==> AdmittedIn(log, from, to) <= b.capacity + Earned(b.rate, to - from)
  }

  /** Ordered requests, none for less than nothing, none before the bucket was created. */
  ghost predicate Proper(b: Bucket, log: seq<Call>) {
    InOrder(log) && forall i :: 0 <= i < |log| ==> log[i].n >= 0.0 && b.lastRefill <= log[i].time
  }

  lemma LastOfStretch(log: seq<Call>, j: nat)
    requires j < |log|
    ensures var s := log[j..|log|];
            s != [] && s[..|s| - 1] == log[..|log| - 1][j..|log| - 1] && s[|s| - 1] == log[|log| - 1]
  {}

  /** A stretch of requests within a window weighs at most what the window admits. */
  lemma {:induction false} StretchInWindow(log: seq<Call>, j: nat, i: nat, from: real, to: real)
    requires j <= i <= |log| && forall k :: 0 <= k < |log| ==> log[k].n >= 0.0
    requires forall k :: j <= k < i ==> In(log[k].time, from, to)
    ensures 0.0 <= AdmittedIn(log, from, to) && Admitted(log[j..i]) <= AdmittedIn(log, from, to)
    decreases |log|
  {
    if log != [] {
      var past := log[..|log| - 1];
      if i == |log| && j < i {
        StretchInWindow(past, j, i - 1, from, to);
        LastOfStretch(log, j);
      } else if i < |log| {
        StretchInWindow(past, j, i, from, to);
        assert log[j..i] == past[j..i];
      } else {
        StretchInWindow(past, |past|, |past|, from, to);
        assert log[j..i] == [];
      }
    }
  }

  /** One admitted request against the window from one start. */
  lemma {:induction false} WindowObjects(b: Bucket, log: seq<Call>, i: nat, j: nat)
    requires b.tokens == b.capacity && Proper(b, log) && Within(b, log)
    requires j <= i < |log| && log[i].admitted
    ensures log[i].n <= Slack(b, log[..i], j, log[i].time)
  {
    hide Earned, AdmittedIn;
    var past, from, to := log[..i], StartTime(b.lastRefill, log[..i], j), log[i].time;
    var first := if j == 0 then 0 else j - 1;
    StretchInWindow(log, first, i + 1, from, to);
    assert log[first..i + 1] == Since(past, j) + [log[i]];
    assert (Since(past, j) + [log[i]])[..|Since(past, j)|] == Since(past, j);
    assert AdmittedIn(log, from, to) <= b.capacity + Earned(b.rate, to - from);
  }

  lemma {:induction false} SingleFits(b: Bucket, log: seq<Call>, i: nat)
    requires Proper(b, log) && Within(b, log) && i < |log| && log[i].admitted
    ensures log[i].n <= b.capacity
  {
    var t := log[i].time;
    StretchInWindow(log, i, i + 1, t, t);
    assert log[i..i + 1] == [log[i]] && [log[i]][..0] == [];
    assert AdmittedIn(log, t, t) <= b.capacity + Earned(b.rate, t - t);
  }

  /** The rule of windows that start at requests, and the limit in all windows of real time, are the same. */
  lemma {:induction false} ConformsIffWithin(b: Bucket, log: seq<Call>)
    requires b.tokens == b.capacity && b.capacity >= 0.0 && b.rate >= 0.0 && Proper(b, log)
    ensures Conforms(b, log) <==> Within(b, log)
  {
    hide Earned, AdmittedIn, Slack;
    if Conforms(b, log) {
      forall from, to | from <= to ensures AdmittedIn(log, from, to) <= b.capacity + Earned(b.rate, to - from) {
        WindowBound(b, log, from, to);
      }
    }
    if Within(b, log) {
      forall i | 0 <= i < |log| && log[i].admitted ensures Admissible(b, log[..i], log[i].n, log[i].time) {
        SingleFits(b, log, i);
        forall j | 0 <= j <= i ensures log[i].n <= Slack(b, log[..i], j, log[i].time) {
          WindowObjects(b, log, i, j);
        }
      }
    }
  }

  // ---- optimality among all conforming policies ----

  function CountAdmitted(log: seq<Call>): nat {
    if log == [] then 0
    else CountAdmitted(log[..|log| - 1]) + (if log[|log| - 1].admitted then 1 else 0)
  }

  /** Both logs record the same unit requests; only the decisions may differ. */
  ghost predicate SameUnitRequests(a: seq<Call>, b: seq<Call>) {
    && |a| == |b|
    && forall i :: 0 <= i < |a| ==> a[i].time == b[i].time && a[i].n == 1.0 && b[i].n == 1.0
  }

  /** One unit request on two buckets of the same shape: what `o` leads by stays covered by `lead`,
      the requests that `g` admitted more. */
  lemma LeadCovers(g: Bucket, o: Bucket, now: real, gYes: bool, oYes: bool, lead: nat)
    requires g.capacity == o.capacity && g.rate == o.rate && g.lastRefill == o.lastRefill
    requires o.tokens - g.tokens <= lead as real
    requires gYes <==> Allows(g, 1.0, now)
    requires oYes ==> Allows(o, 1.0, now)
    ensures var lead' := lead + (if gYes then 1 else 0) - (if oYes then 1 else 0);
            && lead' >= 0
            && Apply(o, Call(now, 1.0, oYes)).tokens - Apply(g, Call(now, 1.0, gYes)).tokens <= lead' as real
  {
    hide Earned;
    assert Earned(g.rate, now - g.lastRefill) == Earned(o.rate, now - o.lastRefill);
    assert Refill(o, now).tokens - Refill(g, now).tokens <= lead as real;
    if oYes && !gYes {
      assert lead as real > 0.0;
    }
  }

  /** The window rule on a history is the stored-number test on its replay, request by request. */
  lemma {:induction false} DecisionsByReplay(b: Bucket, log: seq<Call>, k: nat)
    requires b.tokens <= b.capacity && k < |log|
    ensures Greedy(b, log) ==> (log[k].admitted <==> Allows(Replay(b, log[..k]), log[k].n, log[k].time))
    ensures Conforms(b, log) && log[k].admitted ==> Allows(Replay(b, log[..k]), log[k].n, log[k].time)
  {
    hide Earned;
    AllowNExact(b, log[..k], log[k].n, log[k].time);
  }

  lemma {:induction false} PrefixKeepsRules(b: Bucket, log: seq<Call>, k: nat)
    requires k <= |log|
    ensures Greedy(b, log) ==> Greedy(b, log[..k])
    ensures Conforms(b, log) ==> Conforms(b, log[..k])
  {
    hide Slack;
    assert forall i :: 0 <= i < k ==> log[..k][..i] == log[..i];
  }

  lemma {:induction false} GreedySnoc(b: Bucket, log: seq<Call>, call: Call)
    requires Greedy(b, log) && (call.admitted <==> Admissible(b, log, call.n, call.time))
    ensures Greedy(b, log + [call])
  {
    hide Admissible;
    var all := log + [call];
    assert all[..|log|] == log;
    assert forall i :: 0 <= i < |log| ==> all[..i] == log[..i];
  }

  /** A policy that saved tokens has saved at most one per request it gave up. */
  lemma {:induction false} GreedyIsAhead(b: Bucket, greedy: seq<Call>, other: seq<Call>)
    requires b.tokens <= b.capacity
    requires SameUnitRequests(greedy, other) && Greedy(b, greedy) && Conforms(b, other)
    ensures CountAdmitted(other) <= CountAdmitted(greedy)
    ensures Replay(b, other).tokens - Replay(b, greedy).tokens
         <= (CountAdmitted(greedy) - CountAdmitted(other)) as real
    ensures Replay(b, other).lastRefill == Replay(b, greedy).lastRefill
    decreases |greedy|
  {
    hide Earned, Admissible;
    if greedy != [] {
      var k := |greedy| - 1;
      var g, o := greedy[..k], other[..k];
      PrefixKeepsRules(b, greedy, k);
      PrefixKeepsRules(b, other, k);
      GreedyIsAhead(b, g, o);
      DecisionsByReplay(b, greedy, k);
      DecisionsByReplay(b, other, k);
      var now, lead := greedy[k].time, CountAdmitted(g) - CountAdmitted(o);
      LeadCovers(Replay(b, g), Replay(b, o), now, greedy[k].admitted, other[k].admitted, lead);
      assert greedy[k] == Call(now, 1.0, greedy[k].admitted) && other[k] == Call(now, 1.0, other[k].admitted);
    }
  }

  /** On unit requests the bucket has admitted, at every prefix, at least as many requests as any
      policy whose admissions respect all the windows. */
  lemma {:induction false} GreedyOptimal(b: Bucket, greedy: seq<Call>, other: seq<Call>, k: nat)
    requires b.tokens <= b.capacity
    requires SameUnitRequests(greedy, other) && Greedy(b, greedy) && Conforms(b, other)
    requires k <= |greedy|
    ensures CountAdmitted(other[..k]) <= CountAdmitted(greedy[..k])
  {
    PrefixKeepsRules(b, greedy, k);
    PrefixKeepsRules(b, other, k);
    GreedyIsAhead(b, greedy[..k], other[..k]);
  }

  /** And so at least as many as any policy that stays within capacity + rate * length in all windows. */
  lemma {:induction false} OptimalWithinLimit(b: Bucket, greedy: seq<Call>, other: seq<Call>, k: nat)
    requires b.tokens == b.capacity && b.capacity >= 0.0 && b.rate >= 0.0
    requires SameUnitRequests(greedy, other) && Greedy(b, greedy) && Proper(b, other) && Within(b, other)
    requires k <= |greedy|
    ensures CountAdmitted(other[..k]) <= CountAdmitted(greedy[..k])
  {
    ConformsIffWithin(b, other);
    GreedyOptimal(b, greedy, other, k);
  }

  // ---- extra refills ----

  /** Two buckets that no later request can tell apart, from time `now` on. */
  predicate SameFrom(a: Bucket, b: Bucket, now: real) {
    a.capacity == b.capacity && a.rate == b.rate && Refill(a, now).tokens == Refill(b, now).tokens
  }

  /** Refilling more often changes nothing as long as time does not run backwards: at a rate that is
      not negative, or, at any rate, for a bucket that is not overfull. */
  lemma RefillTwice(b: Bucket, mid: real, now: real)
    requires mid <= now && (b.rate >= 0.0 || (b.tokens <= b.capacity && b.lastRefill <= mid))
    ensures Refill(Refill(b, mid), now) == Refill(b, now)
  {
    EarnedAdds(b.rate, mid - b.lastRefill, now - mid);
    assert (mid - b.lastRefill) + (now - mid) == now - b.lastRefill;
    if b.rate >= 0.0 {
      EarnedGrows(b.rate, 0.0, now - mid);
    } else {
      EarnedGrows(-b.rate, 0.0, mid - b.lastRefill);
    }
    hide Earned;
  }

  // ---- the class ----

  /** `now` is what time.Now() returns under the lock; the mutex makes each call one atomic step. */
  class TokenBucket {
    const capacity: real
    const refillRate: real
    var tokens: real
    var lastRefill: real
    ghost const created: real
    ghost var log: seq<Call>

    ghost function Origin(): Bucket {
      NewBucket(refillRate, capacity, created)
    }

    /** The stored number is what the history leaves, and every decision was the window rule's. */
    ghost predicate Valid() reads this {
      && Bucket(capacity, refillRate, tokens, lastRefill) == Replay(Origin(), log)
      && Greedy(Origin(), log)
    }

    constructor (ratePerSec: real, capacity: real, now: real)
      ensures Valid() && log == [] && Origin() == NewBucket(ratePerSec, capacity, now)
    {
      this.capacity, this.refillRate := capacity, ratePerSec;
      this.tokens, this.lastRefill := capacity, now;
      this.created, this.log := now, [];
    }

    method AllowN(n: real, now: real) returns (ok: bool)
      requires Valid()
      modifies this
      ensures Valid() && log == old(log) + [Call(now, n, ok)]
      ensures ok <==> Admissible(Origin(), old(log), n, now)
    {
      hide Earned, Admissible, Greedy, Replay;
      AllowNExact(Origin(), log, n, now);
      GreedySnoc(Origin(), log, Call(now, n, Allows(Replay(Origin(), log), n, now)));
      var elapsed := now - lastRefill;
      lastRefill := now;
      tokens := tokens + Earned(refillRate, elapsed);
      if tokens > capacity {
        tokens := capacity;
      }
      ok := false;
      if tokens >= n {
        tokens := tokens - n;
        ok := true;
      }
      ReplaySnoc(Origin(), log, Call(now, n, ok));
      log := log + [Call(now, n, ok)];
    }

    method Allow(now: real) returns (ok: bool)
      requires Valid()
      modifies this
      ensures Valid() && log == old(log) + [Call(now, 1.0, ok)]
      ensures ok <==> Admissible(Origin(), old(log), 1.0, now)
    {
      ok := AllowN(1.0, now);
    }

    /** In every window of ordered time the object has admitted at most capacity + rate * length. */
    lemma WithinRate(from: real, to: real)
      requires Valid() && InOrder(log) && capacity >= 0.0 && refillRate >= 0.0 && from <= to
      ensures AdmittedIn(log, from, to) <= capacity + Earned(refillRate, to - from)
    {
      hide Earned;
      WindowBound(Origin(), log, from, to);
    }

    /** On unit requests it has admitted at least as many as any conforming policy would have. */
    lemma AheadOf(other: seq<Call>)
      requires Valid() && SameUnitRequests(log, other) && Conforms(Origin(), other)
      ensures CountAdmitted(other) <= CountAdmitted(log)
    {
      hide Greedy, Conforms;
      GreedyIsAhead(Origin(), log, other);
    }
  }
}
