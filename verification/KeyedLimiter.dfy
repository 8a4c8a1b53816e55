/** KeyedRateLimiter.Allow (token_bucket.go) under concurrency: a request takes a token from the global
    bucket, then finds or creates the bucket of its key, then takes a token there.  The three steps are
    atomic one by one; other requests run in between. */
module KeyedLimiter {
  import opened RateLimit

  /** A request between its global check and its key check. */
  datatype Ticket = Ticket(key: string, passedAt: real, found: bool)

  /** A request that has finished its key check. */
  datatype Done = Done(key: string, passedAt: real, doneAt: real, allowed: bool)

  datatype Limits = Limits(ratePerSec: real, capacity: real, globalRate: real, globalCap: real, start: real)

  /** `clock` is the latest reading of time.Now(), which does not run backwards. */
  datatype Limiter = Limiter(
    global: Bucket, buckets: map<string, Bucket>, waiting: seq<Ticket>, clock: real,
    // history
    globalLog: seq<Call>, created: map<string, real>, keyLogs: map<string, seq<Call>>, done: seq<Done>)

  datatype Step = CheckGlobal(key: string, now: real) | FindBucket(i: nat, now: real) | CheckKey(i: nat, now: real)

  function GlobalOrigin(c: Limits): Bucket { NewBucket(c.globalRate, c.globalCap, c.start) }

  function KeyOrigin(c: Limits, created: real): Bucket { NewBucket(c.ratePerSec, c.capacity, created) }

  function Start(c: Limits): Limiter {
    Limiter(GlobalOrigin(c), map[], [], c.start, [], map[], map[], [])
  }

  predicate Possible(l: Limiter, a: Step) {
    && l.clock <= a.now
    && match a
       case CheckGlobal(_, _) => true
       case FindBucket(i, _) => i < |l.waiting| && !l.waiting[i].found
       case CheckKey(i, _) => i < |l.waiting| && l.waiting[i].found && l.waiting[i].key in l.buckets
  }

  function Without(w: seq<Ticket>, i: nat): seq<Ticket>
    requires i < |w|
  {
    w[..i] + w[i + 1..]
  }

  /** The requests the bucket of `key` has seen. */
  function KeyLog(l: Limiter, key: string): seq<Call> {
    if key in l.keyLogs then l.keyLogs[key] else []
  }

  function Do(c: Limits, l: Limiter, a: Step): Limiter
    requires Possible(l, a)
  {
    match a
    case CheckGlobal(key, now) =>
      var ok := Allows(l.global, 1.0, now);
      var call := Call(now, 1.0, ok);
      l.(global := Apply(l.global, call), globalLog := l.globalLog + [call], clock := now,
         waiting := if ok then l.waiting + [Ticket(key, now, false)] else l.waiting)
    case FindBucket(i, now) =>
      var t := l.waiting[i];
      var found := l.(waiting := l.waiting[i := t.(found := true)], clock := now);
      if t.key in l.buckets then found
      else found.(buckets := l.buckets[t.key := KeyOrigin(c, now)], created := l.created[t.key := now],
                  keyLogs := l.keyLogs[t.key := []])
    case CheckKey(i, now) =>
      var t := l.waiting[i];
      var ok := Allows(l.buckets[t.key], 1.0, now);
      var call := Call(now, 1.0, ok);
      l.(buckets := l.buckets[t.key := Apply(l.buckets[t.key], call)],
         keyLogs := l.keyLogs[t.key := KeyLog(l, t.key) + [call]],
         waiting := Without(l.waiting, i), done := l.done + [Done(t.key, t.passedAt, now, ok)], clock := now)
  }

  /** `steps` lead from `l` to `m`.  Not recursive itself, so that statements can quantify over runs. */
  ghost predicate Run(c: Limits, l: Limiter, steps: seq<Step>, m: Limiter) {
    Leads(c, l, steps, m)
  }

  ghost predicate Leads(c: Limits, l: Limiter, steps: seq<Step>, m: Limiter)
    decreases |steps|
  {
    if steps == [] then l == m
    else Possible(l, steps[0]) && Leads(c, Do(c, l, steps[0]), steps[1..], m)
  }

  lemma {:induction false} RunJoin(c: Limits, l: Limiter, a: seq<Step>, m: Limiter, b: seq<Step>, n: Limiter)
    requires Run(c, l, a, m) && Run(c, m, b, n)
    ensures Run(c, l, a + b, n)
    decreases |a|
  {
    hide Do, Possible;
    if a == [] {
      assert a + b == b;
    } else {
      RunJoin(c, Do(c, l, a[0]), a[1..], m, b, n);
      assert (a + b)[1..] == a[1..] + b;
    }
  }

  lemma RunOne(c: Limits, l: Limiter, a: Step)
    requires Possible(l, a)
    ensures Run(c, l, [a], Do(c, l, a))
  {
    hide Do, Possible;
    assert Leads(c, Do(c, l, a), [a][1..], Do(c, l, a));
  }

  // ---- counting in windows ----

  function Waiting(w: seq<Ticket>, from: real, to: real): nat {
    if w == [] then 0 else Waiting(w[..|w| - 1], from, to) + (if In(w[|w| - 1].passedAt, from, to) then 1 else 0)
  }

  /** Finished requests, allowed or refused by their key, by the time of their global check. */
  function Passed(d: seq<Done>, from: real, to: real): nat {
    if d == [] then 0 else Passed(d[..|d| - 1], from, to) + (if In(d[|d| - 1].passedAt, from, to) then 1 else 0)
  }

  function AllowedByPass(d: seq<Done>, from: real, to: real): nat {
    if d == [] then 0
    else
      var x := d[|d| - 1];
      AllowedByPass(d[..|d| - 1], from, to) + (if x.allowed && In(x.passedAt, from, to) then 1 else 0)
  }

  function AllowedForKey(d: seq<Done>, key: string, from: real, to: real): nat {
    if d == [] then 0
    else
      var x := d[|d| - 1];
      AllowedForKey(d[..|d| - 1], key, from, to)
      + (if x.allowed && x.key == key && In(x.doneAt, from, to) then 1 else 0)
  }

  /** Allowed requests by the time of completion, and those among them that passed the global check earlier. */
  function AllowedByEnd(d: seq<Done>, from: real, to: real): nat {
    if d == [] then 0
    else AllowedByEnd(d[..|d| - 1], from, to) + (if d[|d| - 1].allowed && In(d[|d| - 1].doneAt, from, to) then 1 else 0)
  }

  function CarriedIn(d: seq<Done>, from: real, to: real): nat {
    if d == [] then 0
    else
      var x := d[|d| - 1];
      CarriedIn(d[..|d| - 1], from, to) + (if x.allowed && x.passedAt < from && In(x.doneAt, from, to) then 1 else 0)
  }

  lemma WithoutInit(w: seq<Ticket>, i: nat)
    requires i < |w| - 1
    ensures var k, v := |w| - 1, Without(w, i);
            v != [] && v[..|v| - 1] == Without(w[..k], i) && v[|v| - 1] == w[k] && w[..k][i] == w[i]
  {}

  lemma WithoutLast(w: seq<Ticket>)
    requires w != []
    ensures Without(w, |w| - 1) == w[..|w| - 1]
  {}

  lemma {:induction false} WaitingWithout(w: seq<Ticket>, i: nat, from: real, to: real)
    requires i < |w|
    ensures Waiting(w, from, to) == Waiting(Without(w, i), from, to) + (if In(w[i].passedAt, from, to) then 1 else 0)
    decreases |w|
  {
    hide Without, In;
    if i == |w| - 1 {
      WithoutLast(w);
    } else {
      WithoutInit(w, i);
      WaitingWithout(w[..|w| - 1], i, from, to);
    }
  }

  lemma {:induction false} WaitingFound(w: seq<Ticket>, i: nat, from: real, to: real)
    requires i < |w|
    ensures Waiting(w[i := w[i].(found := true)], from, to) == Waiting(w, from, to)
    decreases |w|
  {
    var k := |w| - 1;
    var v := w[i := w[i].(found := true)];
    if i == k {
      assert v[..k] == w[..k];
    } else {
      WaitingFound(w[..k], i, from, to);
      assert v[..k] == w[..k][i := w[i].(found := true)];
    }
  }

  // ---- invariant ----

  /** A log that a bucket has produced: unit requests, in order, decided by the bucket. */
  ghost predicate Produced(origin: Bucket, b: Bucket, log: seq<Call>, clock: real) {
    && b == Replay(origin, log) && Greedy(origin, log) && InOrder(log)
    && forall i :: 0 <= i < |log| ==> log[i].n == 1.0 && log[i].time <= clock
  }

  lemma ProducedSnoc(origin: Bucket, b: Bucket, log: seq<Call>, clock: real, now: real)
    requires origin.tokens == origin.capacity && Produced(origin, b, log, clock) && clock <= now
    ensures var call := Call(now, 1.0, Allows(b, 1.0, now));
            Produced(origin, Apply(b, call), log + [call], now)
  {
    hide Admissible, Allows, Apply, Replay, Greedy;
    var call := Call(now, 1.0, Allows(b, 1.0, now));
    AllowNExact(origin, log, 1.0, now);
    GreedySnoc(origin, log, call);
    ReplaySnoc(origin, log, call);
  }

  lemma ProducedLater(origin: Bucket, b: Bucket, log: seq<Call>, clock: real, now: real)
    requires Produced(origin, b, log, clock) && clock <= now
    ensures Produced(origin, b, log, now)
  {
    hide Replay, Greedy;
  }

  ghost predicate Books(c: Limits, l: Limiter) {
    && Produced(GlobalOrigin(c), l.global, l.globalLog, l.clock)
    && l.buckets.Keys == l.keyLogs.Keys == l.created.Keys
    && (forall k :: k in l.buckets ==> Produced(KeyOrigin(c, l.created[k]), l.buckets[k], l.keyLogs[k], l.clock))
    && (forall i :: 0 <= i < |l.waiting| && l.waiting[i].found ==> l.waiting[i].key in l.buckets)
  }

  lemma BooksStep(c: Limits, l: Limiter, a: Step)
    requires Books(c, l) && Possible(l, a)
    ensures Books(c, Do(c, l, a))
  {
    hide Produced, Allows, Apply;
    var m := Do(c, l, a);
    forall k | k in l.buckets ensures Produced(KeyOrigin(c, l.created[k]), l.buckets[k], l.keyLogs[k], m.clock) {
      ProducedLater(KeyOrigin(c, l.created[k]), l.buckets[k], l.keyLogs[k], l.clock, m.clock);
    }
    ProducedLater(GlobalOrigin(c), l.global, l.globalLog, l.clock, m.clock);
    match a
    case CheckGlobal(_, now) => ProducedSnoc(GlobalOrigin(c), l.global, l.globalLog, l.clock, now);
    case FindBucket(i, now) => ProducedEmpty(KeyOrigin(c, now), now);
    case CheckKey(i, now) =>
      var k := l.waiting[i].key;
      ProducedSnoc(KeyOrigin(c, l.created[k]), l.buckets[k], l.keyLogs[k], l.clock, now);
  }

  lemma ProducedEmpty(origin: Bucket, now: real)
    ensures Produced(origin, origin, [], now)
  {}

  /** The logs of the buckets agree with the fates of the requests, in every window. */
  ghost predicate Agrees(l: Limiter, from: real, to: real) {
    AdmittedIn(l.globalLog, from, to) == (Waiting(l.waiting, from, to) + Passed(l.done, from, to)) as real
  }

  ghost predicate AgreesForKey(l: Limiter, key: string, from: real, to: real) {
    (if key in l.keyLogs then AdmittedIn(l.keyLogs[key], from, to) else 0.0)
    == AllowedForKey(l.done, key, from, to) as real
  }

  lemma DoneSnoc(d: seq<Done>, x: Done, key: string, from: real, to: real)
    ensures Passed(d + [x], from, to) == Passed(d, from, to) + (if In(x.passedAt, from, to) then 1 else 0)
    ensures AllowedForKey(d + [x], key, from, to)
         == AllowedForKey(d, key, from, to) + (if x.allowed && x.key == key && In(x.doneAt, from, to) then 1 else 0)
  {
    assert (d + [x])[..|d|] == d;
  }

  lemma WaitingSnoc(w: seq<Ticket>, x: Ticket, from: real, to: real)
    ensures Waiting(w + [x], from, to) == Waiting(w, from, to) + (if In(x.passedAt, from, to) then 1 else 0)
  {
    assert (w + [x])[..|w|] == w;
  }

  lemma AgreesStep(c: Limits, l: Limiter, a: Step, from: real, to: real)
    requires Agrees(l, from, to) && Possible(l, a)
    ensures Agrees(Do(c, l, a), from, to)
  {
    hide Allows, Apply, Waiting, Passed, AdmittedIn, In, Without;
    match a
    case CheckGlobal(key, now) =>
      var ok := Allows(l.global, 1.0, now);
      AdmittedInSnoc(l.globalLog, Call(now, 1.0, ok), from, to);
      WaitingSnoc(l.waiting, Ticket(key, now, false), from, to);
    case FindBucket(i, _) => WaitingFound(l.waiting, i, from, to);
    case CheckKey(i, now) =>
      WaitingWithout(l.waiting, i, from, to);
      var t := l.waiting[i];
      DoneSnoc(l.done, Done(t.key, t.passedAt, now, Allows(l.buckets[t.key], 1.0, now)), t.key, from, to);
  }

  lemma AgreesForKeyStep(c: Limits, l: Limiter, a: Step, key: string, from: real, to: real)
    requires AgreesForKey(l, key, from, to) && Possible(l, a) && l.buckets.Keys == l.keyLogs.Keys
    ensures AgreesForKey(Do(c, l, a), key, from, to)
  {
    hide Allows, Apply, AllowedForKey, In, Without;
    if a.CheckKey? {
      hide AdmittedIn;
      var t := l.waiting[a.i];
      var ok := Allows(l.buckets[t.key], 1.0, a.now);
      DoneSnoc(l.done, Done(t.key, t.passedAt, a.now, ok), key, from, to);
      AdmittedInSnoc(l.keyLogs[t.key], Call(a.now, 1.0, ok), from, to);
    }
  }

  lemma {:induction false} RunKeeps(
      c: Limits, l: Limiter, steps: seq<Step>, m: Limiter, key: string, from: real, to: real)
    requires Books(c, l) && Agrees(l, from, to) && AgreesForKey(l, key, from, to) && Run(c, l, steps, m)
    ensures Books(c, m) && Agrees(m, from, to) && AgreesForKey(m, key, from, to)
    decreases |steps|
  {
    hide Agrees, AgreesForKey, Do, Possible, Produced;
    if steps != [] {
      var a := steps[0];
      BooksStep(c, l, a);
      AgreesStep(c, l, a, from, to);
      AgreesForKeyStep(c, l, a, key, from, to);
      hide Books;
      RunKeeps(c, Do(c, l, a), steps[1..], m, key, from, to);
    }
  }

  lemma FromStart(c: Limits, steps: seq<Step>, m: Limiter, key: string, from: real, to: real)
    requires Run(c, Start(c), steps, m)
    ensures Books(c, m) && Agrees(m, from, to) && AgreesForKey(m, key, from, to)
  {
    ProducedEmpty(GlobalOrigin(c), c.start);
    hide Run, Produced;
    RunKeeps(c, Start(c), steps, m, key, from, to);
  }

  /** A request that has passed the global check can always be finished, whatever other requests do in
      between: its key's bucket then decides by the windows over the key's own history. */
  lemma TicketCompletes(c: Limits, l: Limiter, i: nat, now: real) returns (steps: seq<Step>, m: Limiter)
    requires Books(c, l) && i < |l.waiting| && l.clock <= now
    ensures Run(c, l, steps, m) && m.waiting == Without(l.waiting, i) && m.global == l.global
    ensures var t := l.waiting[i];
            var created := if t.key in l.created then l.created[t.key] else now;
            var ok := Admissible(KeyOrigin(c, created), KeyLog(l, t.key), 1.0, now);
            && m.done == l.done + [Done(t.key, t.passedAt, now, ok)]
            && KeyLog(m, t.key) == KeyLog(l, t.key) + [Call(now, 1.0, ok)]
            && forall k :: k in l.buckets && k != t.key ==> k in m.buckets && m.buckets[k] == l.buckets[k]
  {
    var t := l.waiting[i];
    var found := l;
    steps := [];
    if !t.found {
      var find := FindBucket(i, now);
      BooksStep(c, l, find);
      RunOne(c, l, find);
      found := Do(c, l, find);
      steps := [find];
    }
    var check := CheckKey(i, now);
    assert Produced(KeyOrigin(c, found.created[t.key]), found.buckets[t.key], found.keyLogs[t.key], found.clock);
    AllowNExact(KeyOrigin(c, found.created[t.key]), found.keyLogs[t.key], 1.0, now);
    hide Produced, Allows, Apply, Admissible, Leads, Books;
    RunOne(c, found, check);
    m := Do(c, found, check);
    if steps != [] { RunJoin(c, l, steps, found, [check], m); }
    steps := steps + [check];
    assert [] + [check] == [check];
  }

  // ---- theorems ----

  /** One key: in every window, by the time of the key check, at most capacity + rate * length. */
  lemma KeyWindow(c: Limits, steps: seq<Step>, m: Limiter, key: string, from: real, to: real)
    requires c.capacity >= 0.0 && c.ratePerSec >= 0.0 && from <= to
    requires Run(c, Start(c), steps, m)
    ensures AllowedForKey(m.done, key, from, to) as real <= c.capacity + Earned(c.ratePerSec, to - from)
  {
    FromStart(c, steps, m, key, from, to);
    hide Earned, Run, AllowedForKey, AdmittedIn, Replay;
    if key in m.buckets {
      WindowBound(KeyOrigin(c, m.created[key]), m.keyLogs[key], from, to);
    } else {
      EarnedGrows(c.ratePerSec, 0.0, to - from);
    }
  }

  lemma {:induction false} AllowedAreSome(d: seq<Done>, from: real, to: real)
    requires from <= to
    ensures AllowedByPass(d, from, to) <= Passed(d, from, to)
    ensures AllowedByEnd(d, from, to) <= AllowedByPass(d, from, to) + CarriedIn(d, from, to) + LaterPass(d, from, to)
    decreases |d|
  {
    if d != [] { AllowedAreSome(d[..|d| - 1], from, to); }
  }

  /** Completions in the window of requests that passed the global check only after it. */
  function LaterPass(d: seq<Done>, from: real, to: real): nat {
    if d == [] then 0
    else
      var x := d[|d| - 1];
      LaterPass(d[..|d| - 1], from, to) + (if x.passedAt > to && In(x.doneAt, from, to) then 1 else 0)
  }

  /** The global history: unit requests, none later than the clock. */
  lemma GlobalLogShape(c: Limits, steps: seq<Step>, m: Limiter)
    requires Run(c, Start(c), steps, m)
    ensures forall i :: 0 <= i < |m.globalLog| ==> m.globalLog[i].n == 1.0 && m.globalLog[i].time <= m.clock
  {
    FromStart(c, steps, m, "", 0.0, 0.0);
  }

  /** The global bucket admits at most globalCap + globalRate * length in every window. */
  lemma GlobalLogBound(c: Limits, steps: seq<Step>, m: Limiter, from: real, to: real)
    requires c.globalCap >= 0.0 && c.globalRate >= 0.0 && from <= to
    requires Run(c, Start(c), steps, m)
    ensures AdmittedIn(m.globalLog, from, to) <= c.globalCap + Earned(c.globalRate, to - from)
  {
    FromStart(c, steps, m, "", from, to);
    hide Earned, Run, AdmittedIn, Replay;
    WindowBound(GlobalOrigin(c), m.globalLog, from, to);
  }

  /** All keys: in every window, by the time of the global check, the requests allowed, refused by
      their key or still between the checks number at most globalCap + globalRate * length. */
  lemma GlobalWindow(c: Limits, steps: seq<Step>, m: Limiter, from: real, to: real)
    requires c.globalCap >= 0.0 && c.globalRate >= 0.0 && from <= to
    requires Run(c, Start(c), steps, m)
    ensures (Waiting(m.waiting, from, to) + Passed(m.done, from, to)) as real
         <= c.globalCap + Earned(c.globalRate, to - from)
    ensures AllowedByPass(m.done, from, to) as real <= c.globalCap + Earned(c.globalRate, to - from)
  {
    FromStart(c, steps, m, "", from, to);
    AllowedAreSome(m.done, from, to);
    hide Earned, Run, AllowedByPass, AdmittedIn, Replay, Waiting, Passed;
    GlobalLogBound(c, steps, m, from, to);
  }

  // ---- windows by completion time ----

  /** Requests finish after they pass. */
  ghost predicate Causal(l: Limiter) {
    && (forall i :: 0 <= i < |l.waiting| ==> l.waiting[i].passedAt <= l.clock)
    && (forall i :: 0 <= i < |l.done| ==> l.done[i].passedAt <= l.done[i].doneAt <= l.clock)
  }

  lemma {:induction false} CausalRun(c: Limits, l: Limiter, steps: seq<Step>, m: Limiter)
    requires Causal(l) && Run(c, l, steps, m)
    ensures Causal(m)
    decreases |steps|
  {
    if steps != [] {
      hide Do, Possible, Causal;
      CausalRun(c, Do(c, l, steps[0]), steps[1..], m);
    }
  }

  lemma {:induction false} NoLaterPass(d: seq<Done>, from: real, to: real)
    requires forall i :: 0 <= i < |d| ==> d[i].passedAt <= d[i].doneAt
    ensures LaterPass(d, from, to) == 0
    decreases |d|
  {
    if d != [] { NoLaterPass(d[..|d| - 1], from, to); }
  }

  /** By completion time the global limit can be exceeded, but only by the requests that were between
      their two checks when the window began. */
  lemma CompletionWindow(c: Limits, steps: seq<Step>, m: Limiter, from: real, to: real)
    requires c.globalCap >= 0.0 && c.globalRate >= 0.0 && from <= to
    requires Run(c, Start(c), steps, m)
    ensures AllowedByEnd(m.done, from, to) as real
         <= c.globalCap + Earned(c.globalRate, to - from) + CarriedIn(m.done, from, to) as real
  {
    GlobalWindow(c, steps, m, from, to);
    CausalRun(c, Start(c), steps, m);
    AllowedAreSome(m.done, from, to);
    NoLaterPass(m.done, from, to);
  }

  // ---- when the ceiling holds by completion time ----

  /** Some run completes more allowed requests in some window than the global limit grants it. */
  ghost predicate Exceeds(c: Limits, steps: seq<Step>, m: Limiter, from: real, to: real) {
    && Run(c, Start(c), steps, m) && from <= to
    && AllowedByEnd(m.done, from, to) as real > c.globalCap + Earned(c.globalRate, to - from)
  }

  /** Nobody has got past the global check. */
  predicate NobodyPassed(c: Limits, l: Limiter) {
    l.global.capacity == c.globalCap && l.waiting == [] && l.done == []
  }

  lemma {:induction false} NobodyPasses(c: Limits, l: Limiter, steps: seq<Step>, m: Limiter)
    requires c.globalCap < 1.0 && NobodyPassed(c, l) && Run(c, l, steps, m)
    ensures NobodyPassed(c, m)
    decreases |steps|
  {
    hide Earned;
    if steps != [] { NobodyPasses(c, Do(c, l, steps[0]), steps[1..], m); }
  }

  /** Every bucket has the capacity of its kind, and nobody has been allowed. */
  predicate NobodyAllowed(c: Limits, l: Limiter) {
    && (forall k :: k in l.buckets ==> l.buckets[k].capacity == c.capacity)
    && forall i :: 0 <= i < |l.done| ==> !l.done[i].allowed
  }

  lemma {:induction false} KeysRefuse(c: Limits, l: Limiter, steps: seq<Step>, m: Limiter)
    requires c.capacity < 1.0 && NobodyAllowed(c, l) && Run(c, l, steps, m)
    ensures NobodyAllowed(c, m)
    decreases |steps|
  {
    if steps != [] {
      hide Do, Possible, NobodyAllowed;
      KeysRefuse(c, Do(c, l, steps[0]), steps[1..], m);
    }
  }

  lemma {:induction false} NoneAllowed(d: seq<Done>, from: real, to: real)
    requires forall i :: 0 <= i < |d| ==> !d[i].allowed
    ensures AllowedByEnd(d, from, to) == 0
    decreases |d|
  {
    if d != [] { NoneAllowed(d[..|d| - 1], from, to); }
  }

  lemma {:induction false} AtMostAll(d: seq<Done>, from: real, to: real)
    ensures AllowedByEnd(d, from, to) <= |d|
    decreases |d|
  {
    if d != [] { AtMostAll(d[..|d| - 1], from, to); }
  }

  /** A log of unit requests within the window counts in full. */
  lemma {:induction false} WholeWindow(log: seq<Call>, from: real, to: real)
    requires forall i :: 0 <= i < |log| ==> log[i].n == 1.0 && In(log[i].time, from, to)
    ensures AdmittedIn(log, from, to) == CountAdmitted(log) as real
    decreases |log|
  {
    if log != [] { WholeWindow(log[..|log| - 1], from, to); }
  }

  lemma {:induction false} NoTimeBefore(c: Limits, l: Limiter, steps: seq<Step>, m: Limiter, start: real)
    requires Run(c, l, steps, m) && start <= l.clock
    requires forall i :: 0 <= i < |l.globalLog| ==> start <= l.globalLog[i].time
    ensures start <= m.clock && forall i :: 0 <= i < |m.globalLog| ==> start <= m.globalLog[i].time
    decreases |steps|
  {
    hide Allows, Apply;
    if steps != [] { NoTimeBefore(c, Do(c, l, steps[0]), steps[1..], m, start); }
  }

  /** Without refill the whole run lets at most globalCap requests past the global check. */
  lemma NoRefillNoExcess(c: Limits, steps: seq<Step>, m: Limiter, from: real, to: real)
    requires c.globalCap >= 0.0 && c.globalRate == 0.0 && from <= to && Run(c, Start(c), steps, m)
    ensures AllowedByEnd(m.done, from, to) as real <= c.globalCap + Earned(c.globalRate, to - from)
  {
    GlobalLogShape(c, steps, m);
    GlobalTokensAccounted(c, Start(c), steps, m);
    NoTimeBefore(c, Start(c), steps, m, c.start);
    GlobalLogBound(c, steps, m, c.start, m.clock);
    hide Run, AdmittedIn, CountAdmitted, AllowedByEnd;
    WholeWindow(m.globalLog, c.start, m.clock);
    AtMostAll(m.done, from, to);
    assert Earned(c.globalRate, m.clock - c.start) == 0.0 && Earned(c.globalRate, to - from) == 0.0;
  }

  lemma NoExcess(c: Limits, steps: seq<Step>, m: Limiter, from: real, to: real)
    requires c.globalCap >= 0.0 && c.globalRate >= 0.0 && from <= to && Run(c, Start(c), steps, m)
    requires c.globalRate == 0.0 || c.globalCap < 1.0 || c.capacity < 1.0
    ensures AllowedByEnd(m.done, from, to) as real <= c.globalCap + Earned(c.globalRate, to - from)
  {
    hide Run, Earned;
    if c.globalRate == 0.0 {
      NoRefillNoExcess(c, steps, m, from, to);
    } else {
      EarnedGrows(c.globalRate, 0.0, to - from);
      if c.globalCap < 1.0 { NobodyPasses(c, Start(c), steps, m); } else { KeysRefuse(c, Start(c), steps, m); }
      NoneAllowed(m.done, from, to);
    }
  }

  /** A key of its own for each request: strings of different lengths. */
  function OwnKey(i: nat): string { seq(i, _ => 'k') }

  function PassTime(c: Limits, i: nat): real
    requires c.globalRate > 0.0
  {
    c.start + i as real * (1.0 / c.globalRate)
  }

  lemma NextToken(c: Limits, i: nat)
    requires c.globalRate > 0.0
    ensures Earned(c.globalRate, PassTime(c, i + 1) - PassTime(c, i)) == 1.0 && PassTime(c, i) <= PassTime(c, i + 1)
  {
    var gap := 1.0 / c.globalRate;
    assert PassTime(c, i + 1) - PassTime(c, i) == gap;
    assert c.globalRate * gap == 1.0;
  }

  /** `n` requests have passed the global check, each when the token of the one before had come back. */
  predicate Queued(c: Limits, l: Limiter, n: nat)
    requires c.globalRate > 0.0
  {
    && |l.waiting| == n && l.buckets == map[] && l.keyLogs == map[] && l.done == []
    && (forall i :: 0 <= i < n ==> l.waiting[i].key == OwnKey(i) && !l.waiting[i].found)
    && l.global.capacity == c.globalCap && l.global.rate == c.globalRate
    && (n == 0 ==> l.clock == c.start && l.global == GlobalOrigin(c))
    && (n > 0 ==> l.clock == l.global.lastRefill == PassTime(c, n - 1) && l.global.tokens == c.globalCap - 1.0)
  }

  lemma QueueOne(c: Limits, l: Limiter, n: nat) returns (a: Step)
    requires c.globalRate > 0.0 && c.globalCap >= 1.0 && Queued(c, l, n)
    ensures Possible(l, a) && Queued(c, Do(c, l, a), n + 1)
  {
    hide Earned, PassTime, OwnKey;
    a := CheckGlobal(OwnKey(n), PassTime(c, n));
    if n > 0 { NextToken(c, n - 1); } else { FirstTime(c); }
  }

  lemma FirstTime(c: Limits)
    requires c.globalRate > 0.0
    ensures PassTime(c, 0) == c.start && Earned(c.globalRate, PassTime(c, 0) - c.start) == 0.0
  {}

  lemma {:induction false} QueueMany(c: Limits, n: nat) returns (steps: seq<Step>, l: Limiter)
    requires c.globalRate > 0.0 && c.globalCap >= 1.0
    ensures Run(c, Start(c), steps, l) && Queued(c, l, n)
  {
    if n == 0 {
      steps, l := [], Start(c);
    } else {
      hide Do, Possible, Leads, Queued;
      var before, k := QueueMany(c, n - 1);
      var a := QueueOne(c, k, n - 1);
      RunOne(c, k, a);
      RunJoin(c, Start(c), before, k, [a], Do(c, k, a));
      steps, l := before + [a], Do(c, k, a);
    }
  }

  /** Requests that wait for different keys, none of which has a bucket yet. */
  ghost predicate AllNew(l: Limiter) {
    && (forall i :: 0 <= i < |l.waiting| ==>
          !l.waiting[i].found && l.waiting[i].key !in l.buckets && l.waiting[i].key !in l.keyLogs)
    && forall i, j :: 0 <= i < j < |l.waiting| ==> l.waiting[i].key != l.waiting[j].key
  }

  /** The first of them creates its bucket and is allowed. */
  lemma CompleteOne(c: Limits, l: Limiter) returns (steps: seq<Step>, m: Limiter)
    requires c.capacity >= 1.0 && AllNew(l) && l.waiting != []
    ensures Run(c, l, steps, m) && AllNew(m) && m.waiting == l.waiting[1..] && m.clock == l.clock
    ensures m.done == l.done + [Done(l.waiting[0].key, l.waiting[0].passedAt, l.clock, true)]
  {
    hide Earned, Leads, Apply;
    NewBucketAllows(c, l.clock);
    hide Allows;
    var find, check := FindBucket(0, l.clock), CheckKey(0, l.clock);
    var k := Do(c, l, find);
    assert k.buckets[l.waiting[0].key] == KeyOrigin(c, l.clock);
    m := Do(c, k, check);
    RunOne(c, l, find);
    RunOne(c, k, check);
    RunJoin(c, l, [find], k, [check], m);
    steps := [find] + [check];
  }

  lemma NewBucketAllows(c: Limits, now: real)
    requires c.capacity >= 1.0
    ensures Allows(KeyOrigin(c, now), 1.0, now)
  {
    assert now - now == 0.0 && Earned(c.ratePerSec, 0.0) == 0.0;
  }

  lemma {:induction false} CompleteAll(c: Limits, l: Limiter) returns (steps: seq<Step>, m: Limiter)
    requires c.capacity >= 1.0 && AllNew(l)
    ensures Run(c, l, steps, m)
    ensures AllowedByEnd(m.done, l.clock, l.clock) == AllowedByEnd(l.done, l.clock, l.clock) + |l.waiting|
    decreases |l.waiting|
  {
    hide Do, Possible, AllNew;
    if l.waiting == [] {
      steps, m := [], l;
    } else {
      hide Leads;
      var first, k := CompleteOne(c, l);
      assert k.done[..|l.done|] == l.done;
      var rest;
      rest, m := CompleteAll(c, k);
      RunJoin(c, l, first, k, rest, m);
      steps := first + rest;
    }
  }

  /** One request more than the burst, a token apart, all completed at the last instant. */
  lemma CompletionWindowExceeded(c: Limits) returns (steps: seq<Step>, m: Limiter, at: real)
    requires c.globalRate > 0.0 && c.globalCap >= 1.0 && c.capacity >= 1.0
    ensures Exceeds(c, steps, m, at, at)
  {
    hide Do, Possible, Leads, AllowedByEnd;
    var before, l := QueueMany(c, c.globalCap.Floor + 1);
    assert AllNew(l) by {
      assert forall i :: 0 <= i < |l.waiting| ==> |l.waiting[i].key| == i;
    }
    var after;
    after, m := CompleteAll(c, l);
    RunJoin(c, Start(c), before, l, after, m);
    steps, at := before + after, l.clock;
  }

  /** The ceiling by completion time, exactly: some run exceeds it in some window if and only if the
      global bucket refills, and both it and a key's bucket can hold a whole token. */
  lemma CompletionExceedsIff(c: Limits)
    requires c.globalCap >= 0.0 && c.globalRate >= 0.0
    ensures (exists steps, m, from, to :: Exceeds(c, steps, m, from, to))
       <==> c.globalRate > 0.0 && c.globalCap >= 1.0 && c.capacity >= 1.0
  {
    hide Run, AllowedByEnd, Earned;
    if c.globalRate > 0.0 && c.globalCap >= 1.0 && c.capacity >= 1.0 {
      var steps, m, at := CompletionWindowExceeded(c);
      assert Exceeds(c, steps, m, at, at);
    } else {
      forall steps, m, from, to ensures !Exceeds(c, steps, m, from, to) {
        if Run(c, Start(c), steps, m) && from <= to { NoExcess(c, steps, m, from, to); }
      }
    }
  }

  /** The limits main configures: the global bucket has twice the rate and the burst of a key's. */
  function MainLimits(rps: real, burst: real, start: real): Limits {
    Limits(rps, burst, rps * 2.0, burst * 2.0, start)
  }

  /** With them, in every window, all keys together pass at most 2 * (burst + rps * length) requests, and
      one key gets at most burst + rps * length. */
  lemma MainWindow(
      rps: real, burst: real, start: real, steps: seq<Step>, m: Limiter, key: string, from: real, to: real)
    requires rps >= 0.0 && burst >= 0.0 && from <= to
    requires Run(MainLimits(rps, burst, start), Start(MainLimits(rps, burst, start)), steps, m)
    ensures AllowedByPass(m.done, from, to) as real <= 2.0 * (burst + rps * (to - from))
    ensures AllowedForKey(m.done, key, from, to) as real <= burst + rps * (to - from)
  {
    var c := MainLimits(rps, burst, start);
    hide Run, AllowedByPass, AllowedForKey;
    GlobalWindow(c, steps, m, from, to);
    KeyWindow(c, steps, m, key, from, to);
    assert (rps * 2.0) * (to - from) == 2.0 * (rps * (to - from));
  }

  /** And no less: at start-up the global bucket grants up to 2 * burst, a key's bucket up to burst, and
      once emptied they have 2 * rps and rps for each second since, up to the same. */
  lemma MainBuckets(rps: real, burst: real, start: real, n: real, seconds: real)
    requires rps >= 0.0 && burst >= 0.0 && seconds >= 0.0
    ensures var c := MainLimits(rps, burst, start); var g, k := GlobalOrigin(c), KeyOrigin(c, start);
            && (Allows(g, n, start) <==> n <= 2.0 * burst) && (Allows(k, n, start) <==> n <= burst)
            && (Allows(Apply(g, Call(start, 2.0 * burst, true)), n, start + seconds)
                <==> n <= 2.0 * burst && n <= 2.0 * (rps * seconds))
            && (Allows(Apply(k, Call(start, burst, true)), n, start + seconds) <==> n <= burst && n <= rps * seconds)
  {
    assert start - start == 0.0 && (start + seconds) - start == seconds;
    assert Earned(rps, 0.0) == 0.0 && Earned(rps * 2.0, 0.0) == 0.0;
    assert Earned(rps * 2.0, seconds) == 2.0 * (rps * seconds) && Earned(rps, seconds) == rps * seconds;
    hide Earned;
  }

  /** main's ceiling is exceeded by completion time exactly if it refills and admits whole requests. */
  lemma MainExceedsIff(rps: real, burst: real, start: real)
    requires rps >= 0.0 && burst >= 0.0
    ensures (exists steps, m, from, to :: Exceeds(MainLimits(rps, burst, start), steps, m, from, to))
       <==> rps > 0.0 && burst >= 1.0
  {
    hide Exceeds;
    CompletionExceedsIff(MainLimits(rps, burst, start));
  }

  /** How far it can be exceeded, known beforehand: from any reached state with w requests between their
      checks, at most w + globalCap + globalRate * T requests complete in the next T seconds. */
  lemma CompletionsFrom(c: Limits, before: seq<Step>, l: Limiter, steps: seq<Step>, m: Limiter)
    requires c.globalCap >= 0.0 && c.globalRate >= 0.0
    requires Run(c, Start(c), before, l) && Run(c, l, steps, m)
    ensures l.clock <= m.clock && |l.done| <= |m.done|
    ensures (|m.done| - |l.done|) as real <= |l.waiting| as real + c.globalCap + Earned(c.globalRate, m.clock - l.clock)
  {
    GlobalTokensAccounted(c, Start(c), before, l);
    GlobalTokensAccounted(c, l, steps, m);
    RunJoin(c, Start(c), before, l, steps, m);
    hide Run, Earned, AdmittedIn, CountAdmitted;
    LogGrows(c, l, steps, m, l.clock, m.clock);
    GlobalLogBound(c, before + steps, m, l.clock, m.clock);
    GlobalLogShape(c, before, l);
    AdmittedNotNegative(l.globalLog, l.clock, m.clock);
  }

  /** What a run admits from its beginning on falls into every window that contains the run. */
  lemma {:induction false} LogGrows(c: Limits, l: Limiter, steps: seq<Step>, m: Limiter, from: real, to: real)
    requires Run(c, l, steps, m) && from <= l.clock && m.clock <= to
    ensures l.clock <= m.clock && |l.done| <= |m.done|
    ensures AdmittedIn(m.globalLog, from, to) - AdmittedIn(l.globalLog, from, to)
         == CountAdmitted(m.globalLog) as real - CountAdmitted(l.globalLog) as real
    decreases |steps|
  {
    if steps != [] {
      var k := Do(c, l, steps[0]);
      assert l.clock <= k.clock && |l.done| <= |k.done|;
      LogGrows(c, k, steps[1..], m, from, to);
      if steps[0].CheckGlobal? {
        var call := Call(steps[0].now, 1.0, Allows(l.global, 1.0, steps[0].now));
        hide AdmittedIn, Allows, Apply, Leads;
        assert (l.globalLog + [call])[..|l.globalLog|] == l.globalLog;
        AdmittedInSnoc(l.globalLog, call, from, to);
      }
    }
  }

  lemma {:induction false} AdmittedNotNegative(log: seq<Call>, from: real, to: real)
    requires forall i :: 0 <= i < |log| ==> log[i].n == 1.0
    ensures AdmittedIn(log, from, to) >= 0.0
    decreases |log|
  {
    if log != [] { AdmittedNotNegative(log[..|log| - 1], from, to); }
  }

  // ---- tokens and buckets over a run ----

  /** Tokens taken from the global bucket: allowed, refused by the key's bucket, or between the checks. */
  lemma {:induction false} GlobalTokensAccounted(c: Limits, l: Limiter, steps: seq<Step>, m: Limiter)
    requires Run(c, l, steps, m)
    requires CountAdmitted(l.globalLog) == |l.waiting| + |l.done|
    ensures CountAdmitted(m.globalLog) == |m.waiting| + |m.done|
    decreases |steps|
  {
    if steps != [] {
      hide Allows, Apply;
      var n := Do(c, l, steps[0]);
      if steps[0].CheckGlobal? { assert n.globalLog[..|l.globalLog|] == l.globalLog; }
      GlobalTokensAccounted(c, n, steps[1..], m);
    }
  }

  /** A key keeps its bucket for the whole run: its creation stands and its history only grows. */
  lemma {:induction false} OneBucketPerKey(c: Limits, l: Limiter, steps: seq<Step>, m: Limiter, key: string)
    requires Books(c, l) && Run(c, l, steps, m) && key in l.buckets
    ensures Books(c, m)
    ensures key in m.buckets && key in m.created && key in m.keyLogs
    ensures m.created[key] == l.created[key] && l.keyLogs[key] <= m.keyLogs[key]
    decreases |steps|
  {
    if steps != [] {
      BooksStep(c, l, steps[0]);
      BucketKept(c, l, steps[0], key);
      hide Do, Possible, Books;
      OneBucketPerKey(c, Do(c, l, steps[0]), steps[1..], m, key);
    }
  }

  lemma BucketKept(c: Limits, l: Limiter, a: Step, key: string)
    requires Books(c, l) && Possible(l, a) && key in l.buckets
    ensures var m := Do(c, l, a);
            key in m.buckets && key in m.created && key in m.keyLogs
            && m.created[key] == l.created[key] && l.keyLogs[key] <= m.keyLogs[key]
  {
    hide Allows, Apply, Produced, Without;
  }

  // ---- the object ----

  /** The limiter as an object over bucket objects.  `Allow` takes the three clock readings of its
      critical sections. */
  class KeyedRateLimiter {
    var buckets: map<string, TokenBucket>
    const ratePerSec: real
    const capacity: real
    const globalLimit: TokenBucket

    ghost predicate Valid() reads this, globalLimit, buckets.Values {
      && globalLimit.Valid()
      && (forall k :: k in buckets ==>
            && buckets[k] != globalLimit && buckets[k].Valid()
            && buckets[k].capacity == capacity && buckets[k].refillRate == ratePerSec)
      && (forall j, k :: j in buckets && k in buckets && j != k ==> buckets[j] != buckets[k])
    }

    /** What the bucket of `key` has seen so far; nothing if there is none yet. */
    ghost function Seen(key: string): seq<Call> reads this, buckets.Values {
      if key in buckets then buckets[key].log else []
    }

    /** The bucket of `key` as it was created, or would be at `now`. */
    ghost function OriginAt(key: string, now: real): Bucket reads this, buckets.Values {
      if key in buckets then buckets[key].Origin() else NewBucket(ratePerSec, capacity, now)
    }

    constructor (ratePerSec: real, capacity: real, globalRate: real, globalCap: real, now: real)
      ensures Valid() && buckets == map[] && fresh(globalLimit)
      ensures this.ratePerSec == ratePerSec && this.capacity == capacity
      ensures globalLimit.log == [] && globalLimit.Origin() == NewBucket(globalRate, globalCap, now)
    {
      this.ratePerSec, this.capacity := ratePerSec, capacity;
      this.buckets := map[];
      this.globalLimit := new TokenBucket(globalRate, globalCap, now);
    }

    /** A request is allowed exactly when both histories allow it.  The global bucket records it either
        way; a bucket is created for a new key only after the global check, is the only one touched,
        and an existing bucket is never replaced. */
    method Allow(key: string, tGlobal: real, tFind: real, tKey: real) returns (ok: bool)
      requires Valid()
      modifies this`buckets, globalLimit, buckets.Values
      ensures Valid()
      ensures var pass := old(Admissible(globalLimit.Origin(), globalLimit.log, 1.0, tGlobal));
              && globalLimit.log == old(globalLimit.log) + [Call(tGlobal, 1.0, pass)]
              && buckets.Keys == old(buckets.Keys) + (if pass then {key} else {})
              && (ok <==> pass && Admissible(old(OriginAt(key, tFind)), old(Seen(key)), 1.0, tKey))
              && (pass ==> Seen(key) == old(Seen(key)) + [Call(tKey, 1.0, ok)])
              && (pass && key !in old(buckets) ==> buckets[key].Origin() == NewBucket(ratePerSec, capacity, tFind))
              && (forall k :: k in old(buckets) && (k != key || !pass) ==> buckets[k].log == old(buckets[k].log))
      ensures forall k :: k in old(buckets) ==> k in buckets && buckets[k] == old(buckets[k])
    {
      hide Admissible, Replay;
      ok := globalLimit.Allow(tGlobal);
      if ok {
        ok := AllowKey(key, tFind, tKey);
      }
    }

    method AllowKey(key: string, tFind: real, tKey: real) returns (ok: bool)
      requires Valid()
      modifies this`buckets, buckets.Values
      ensures Valid() && buckets.Keys == old(buckets.Keys) + {key}
      ensures Seen(key) == old(Seen(key)) + [Call(tKey, 1.0, ok)]
      ensures key !in old(buckets) ==> buckets[key].Origin() == NewBucket(ratePerSec, capacity, tFind)
      ensures ok <==> Admissible(buckets[key].Origin(), old(Seen(key)), 1.0, tKey)
      ensures forall k :: k in old(buckets) ==> buckets[k] == old(buckets[k])
      ensures forall k :: k in old(buckets) && k != key ==> buckets[k].log == old(buckets[k].log)
    {
      hide Admissible, Replay;
      var bucket := Find(key, tFind);
      ok := bucket.Allow(tKey);
    }

    /** The critical section under k.mu. */
    method Find(key: string, now: real) returns (bucket: TokenBucket)
      requires Valid()
      modifies this`buckets
      ensures Valid() && key in buckets && bucket == buckets[key] && buckets.Keys == old(buckets.Keys) + {key}
      ensures forall k :: k in old(buckets) ==> buckets[k] == old(buckets[k])
      ensures key !in old(buckets) ==>
                fresh(bucket) && bucket.log == [] && bucket.Origin() == NewBucket(ratePerSec, capacity, now)
      ensures fresh(buckets.Values - old(buckets.Values))
    {
      hide Replay;
      if key !in buckets {
        bucket := new TokenBucket(ratePerSec, capacity, now);
        buckets := buckets[key := bucket];
      } else {
        bucket := buckets[key];
      }
    }
  }
}
