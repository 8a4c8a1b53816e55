/** The Go pipeline as an interleaving state machine: HTTP producers, the worker pool
    (go-engine/internal/worker/pool.go), the batch accumulator
    (go-engine/internal/batch/processor.go) and the shutdown thread
    (go-engine/cmd/server/main.go).

    Every thread has a program counter.  One action is one atomic operation of one thread: a channel
    operation, an atomic load or add, or a mutex operation.  Whatever Go leaves open is part of the
    action: which thread runs, which ready case a `select` takes, whether `FlushBatch` fails, and
    whether the HTTP server stopped before its deadline.

    Producers are HTTP handlers: a send on the closed channel panics, and net/http recovers the panic of
    a handler, so the handler dies and everything else goes on. */
module Pipeline {
  import opened Events

  type Event = TelemetryEvent

  /** `repaired` selects a variant that is not in the source: it releases `mu` before the final flush. */
  datatype Config = Config(queueCap: nat, inCap: nat, threshold: nat, numWorkers: nat, repaired: bool)

  /** Fields of `Pool`.  `ctxDone` is the cancelled context. */
  datatype PoolVars = PoolVars(
    taskCh: seq<Event>, closed: bool, ctxDone: bool, shuttingDown: bool,
    accepted: nat, dropped: nat, processed: nat)

  /** Fields of `Processor`; `mu` is a Go mutex, which its owner cannot lock again. */
  datatype ProcVars = ProcVars(
    inCh: seq<Event>, buffer: seq<Event>, mu: Mutex, ctxDone: bool,
    totalFlushed: nat, totalBatches: nat, flushErrors: nat)

  datatype Mutex = Free | ByProcessor | ByReader

  /** A producer runs `EnqueueBatch`, with `rest` still to come; a single event is a batch of one. */
  datatype Call = Call(total: nat, rest: seq<Event>, acc: nat, rej: nat)

  datatype Producer =
    | Idle
    | Enqueue(call: Call)        // about to load isShuttingDown
    | Checked(ev: Event, call: Call)   // about to select on taskCh
    | Sent(call: Call)           // about to bump accepted
    | Rejected(call: Call)       // about to bump dropped
    | Dead(call: Call)           // its send on the closed taskCh panicked; net/http recovered the handler

  datatype Worker =
    | Selecting
    | Holding(ev: Event)         // received in the select, about to Submit
    | Counting(ok: bool)         // about to bump processed or dropped
    | Draining                   // in the range loop after ctx.Done
    | DrainHolding(ev: Event)
    | DrainCounting              // about to bump processed, whatever Submit answered
    | Exiting                    // about to run the deferred wg.Done
    | Gone

  datatype Reason = CountThreshold | WindowTimeout | GracefulShutdown

  datatype Accumulator =
    | Select
    | Got(ev: Event)             // received, about to lock mu
    | Append(ev: Event)          // holds mu
    | TickLock                   // ticker fired, about to lock mu
    | TickBody                   // holds mu
    | Flush(batch: seq<Event>, reason: Reason)
    | AddFlushed(size: nat, reason: Reason)
    | AddBatches(reason: Reason)
    | Relock(reason: Reason)     // doFlush, about to lock mu for lastFlushTime
    | Relocked(reason: Reason)
    | AddError(reason: Reason)
    | DrainLock                  // drainAndFlush, about to lock mu
    | Drain                      // holds mu
    | Unlock                     // about to run the deferred mu.Unlock
    | Leave                      // about to run the deferred wg.Done
    | Ended

  /** The main goroutine, in the order of its shutdown sequence. */
  datatype Main = Serving | HttpStopped | FlagSet | Closed | Waiting | Stopping | Joining | Finished

  /** One call of FlushBatch with its outcome. */
  datatype Attempt = Attempt(batch: seq<Event>, reason: Reason, ok: bool)

  datatype Answer = Answer(total: nat, acc: nat, rej: nat)

  /** History, which no thread reads. */
  datatype Log = Log(
    sent: seq<Event>,              // every event put into taskCh
    submitted: seq<Event>,         // every event put into inCh
    droppedAtSubmit: seq<Event>,   // Submit refused, the worker counted it as dropped
    lost: seq<Event>,              // Submit refused in the drain loop, counted as processed
    attempts: seq<Attempt>,
    rejections: nat,               // Enqueue found taskCh full
    answers: seq<Answer>)          // results of finished EnqueueBatch calls

  datatype State = State(
    pool: PoolVars, proc: ProcVars,
    producers: seq<Producer>, workers: seq<Worker>, acc: Accumulator, main: Main,
    accepting: bool,               // HTTP handlers may start new calls
    log: Log)

  function Init(c: Config, producers: nat): State {
    State(
      PoolVars([], false, false, false, 0, 0, 0),
      ProcVars([], [], Free, false, 0, 0, 0),
      seq(producers, _ => Idle), seq(c.numWorkers, _ => Selecting), Select, Serving,
      true,
      Log([], [], [], [], [], 0, []))
  }

  // ---- operations shared by the threads ----

  /** Processor.Submit: a non-blocking send. */
  function Submit(c: Config, p: ProcVars, ev: Event): (ProcVars, bool) {
    if |p.inCh| < c.inCap then (p.(inCh := p.inCh + [ev]), true) else (p, false)
  }

  /** Where doFlush returns to. */
  function AfterFlush(c: Config, reason: Reason): Accumulator {
    if reason != GracefulShutdown then Select else if c.repaired then Leave else Unlock
  }

  function BatchLimit(c: Config): nat {
    if c.threshold == 0 then 1 else c.threshold
  }

  // ---- actions ----

  datatype Case = OnCancel | OnReceive | OnTick

  datatype Action =
    | StartCall(i: nat, events: seq<Event>)
    | ProducerStep(i: nat)
    | WorkerStep(i: nat, which: Case)
    | AccumulatorStep(which: Case, flushOk: bool)
    | MainStep(clean: bool)
    | ReaderLock                   // Processor.Metrics locks mu
    | ReaderUnlock

  predicate Enabled(c: Config, s: State, a: Action) {
    match a
    case StartCall(i, _) => i < |s.producers| && s.producers[i].Idle? && s.accepting
    case ProducerStep(i) => i < |s.producers| && Running(s.producers[i])
    case WorkerStep(i, which) => i < |s.workers| && WorkerEnabled(s.pool, s.workers[i], which)
    case AccumulatorStep(which, _) => AccumulatorEnabled(s.proc, s.acc, which)
    case MainStep(clean) => MainEnabled(s, clean)
    case ReaderLock => s.proc.mu == Free
    case ReaderUnlock => s.proc.mu == ByReader
  }

  /** A handler in the middle of its call; net/http waits only for those. */
  predicate Running(x: Producer) { !x.Idle? && !x.Dead? }

  /** A receive is ready when an event is queued or the channel is closed. */
  predicate Ready(p: PoolVars) {
    p.taskCh != [] || p.closed
  }

  predicate WorkerEnabled(p: PoolVars, w: Worker, which: Case) {
    match w
    case Selecting => (which == OnCancel && p.ctxDone) || (which == OnReceive && Ready(p))
    case Draining => Ready(p)
    case Gone => false
    case _ => true
  }

  predicate AccumulatorEnabled(p: ProcVars, a: Accumulator, which: Case) {
    match a
    case Select => (which == OnCancel && p.ctxDone) || (which == OnReceive && p.inCh != []) || which == OnTick
    case Got(_) => p.mu == Free
    case TickLock => p.mu == Free
    case Relock(_) => p.mu == Free
    case DrainLock => p.mu == Free
    case Ended => false
    case _ => true
  }

  predicate MainEnabled(s: State, clean: bool) {
    match s.main
    case Serving => clean ==> forall i :: 0 <= i < |s.producers| ==> !Running(s.producers[i])
    case Waiting => forall i :: 0 <= i < |s.workers| ==> s.workers[i].Gone?
    case Joining => s.acc.Ended?
    case Finished => false
    case _ => true
  }

  function Apply(c: Config, s: State, a: Action): State
    requires Enabled(c, s, a)
  {
    match a
    case StartCall(i, events) => s.(producers := s.producers[i := Enqueue(Call(|events|, events, 0, 0))])
    case ProducerStep(i) => StepProducer(c, s, i)
    case WorkerStep(i, which) => StepWorker(c, s, i, which)
    case AccumulatorStep(which, flushOk) => StepAccumulator(c, s, which, flushOk)
    case MainStep(clean) => StepMain(s, clean)
    case ReaderLock => s.(proc := s.proc.(mu := ByReader))
    case ReaderUnlock => s.(proc := s.proc.(mu := Free))
  }

  // Enqueue and the loop of EnqueueBatch

  /** The send on taskCh goes through. */
  predicate Sends(c: Config, p: PoolVars, x: Producer) {
    x.Checked? && !p.closed && |p.taskCh| < c.queueCap
  }

  predicate Answers(x: Producer) {
    x.Enqueue? && x.call.rest == []
  }

  function ProducerNext(c: Config, p: PoolVars, x: Producer): (PoolVars, Producer)
    requires Running(x)
  {
    var call := x.call;
    match x
    case Enqueue(_) =>
      if call.rest == [] then (p, Idle)
      else if p.shuttingDown then (p, Enqueue(call.(rest := call.rest[1..], rej := call.rej + 1)))
      else (p, Checked(call.rest[0], call.(rest := call.rest[1..])))
    case Checked(ev, _) =>
      if p.closed then (p, Dead(call))
      else if |p.taskCh| < c.queueCap then (p.(taskCh := p.taskCh + [ev]), Sent(call))
      else (p, Rejected(call))
    case Sent(_) => (p.(accepted := p.accepted + 1), Enqueue(call.(acc := call.acc + 1)))
    case Rejected(_) => (p.(dropped := p.dropped + 1), Enqueue(call.(rej := call.rej + 1)))
  }

  function StepProducer(c: Config, s: State, i: nat): State
    requires i < |s.producers| && Running(s.producers[i])
  {
    var x := s.producers[i];
    var (pool', x') := ProducerNext(c, s.pool, x);
    s.(pool := pool', producers := s.producers[i := x'],
       log := s.log.(
         sent := if Sends(c, s.pool, x) then s.log.sent + [x.ev] else s.log.sent,
         rejections := if x.Rejected? then s.log.rejections + 1 else s.log.rejections,
         answers := if !Answers(x) then s.log.answers
                    else s.log.answers + [Answer(x.call.total, x.call.acc, x.call.rej)]))
  }

  // workerRoutine

  function WorkerNext(c: Config, p: PoolVars, q: ProcVars, w: Worker, which: Case): (PoolVars, ProcVars, Worker)
    requires WorkerEnabled(p, w, which)
  {
    match w
    case Selecting =>
      if which == OnCancel then (p, q, Draining)
      else if p.taskCh == [] then (p, q, Exiting)
      else (p.(taskCh := p.taskCh[1..]), q, Holding(p.taskCh[0]))
    case Holding(ev) => var (q', ok) := Submit(c, q, ev); (p, q', Counting(ok))
    case Counting(ok) =>
      (if ok then p.(processed := p.processed + 1) else p.(dropped := p.dropped + 1), q, Selecting)
    case Draining =>
      if p.taskCh == [] then (p, q, Exiting)
      else (p.(taskCh := p.taskCh[1..]), q, DrainHolding(p.taskCh[0]))
    case DrainHolding(ev) => var (q', _) := Submit(c, q, ev); (p, q', DrainCounting)
    case DrainCounting => (p.(processed := p.processed + 1), q, Draining)
    case Exiting => (p, q, Gone)
  }

  function WorkerLog(c: Config, q: ProcVars, w: Worker, log: Log): Log {
    if !(w.Holding? || w.DrainHolding?) then log
    else if |q.inCh| < c.inCap then log.(submitted := log.submitted + [w.ev])
    else if w.Holding? then log.(droppedAtSubmit := log.droppedAtSubmit + [w.ev])
    else log.(lost := log.lost + [w.ev])
  }

  function StepWorker(c: Config, s: State, i: nat, which: Case): State
    requires i < |s.workers| && WorkerEnabled(s.pool, s.workers[i], which)
  {
    var (pool', proc', w') := WorkerNext(c, s.pool, s.proc, s.workers[i], which);
    s.(pool := pool', proc := proc', workers := s.workers[i := w'],
       log := WorkerLog(c, s.proc, s.workers[i], s.log))
  }

  // run, doFlush and drainAndFlush

  function AccumulatorNext(c: Config, p: ProcVars, a: Accumulator, which: Case, flushOk: bool): (ProcVars, Accumulator)
    requires AccumulatorEnabled(p, a, which)
  {
    match a
    case Select =>
      if which == OnCancel then (p, DrainLock)
      else if which == OnTick then (p, TickLock)
      else (p.(inCh := p.inCh[1..]), Got(p.inCh[0]))
    case Got(ev) => (p.(mu := ByProcessor), Append(ev))
    case Append(ev) =>
      var grown := p.buffer + [ev];
      if |grown| >= c.threshold then (p.(buffer := [], mu := Free), Flush(grown, CountThreshold))
      else (p.(buffer := grown, mu := Free), Select)
    case TickLock => (p.(mu := ByProcessor), TickBody)
    case TickBody =>
      if p.buffer != [] then (p.(buffer := [], mu := Free), Flush(p.buffer, WindowTimeout))
      else (p.(mu := Free), Select)
    case Flush(batch, reason) => (p, if flushOk then AddFlushed(|batch|, reason) else AddError(reason))
    case AddFlushed(size, reason) => (p.(totalFlushed := p.totalFlushed + size), AddBatches(reason))
    case AddBatches(reason) => (p.(totalBatches := p.totalBatches + 1), Relock(reason))
    case Relock(reason) => (p.(mu := ByProcessor), Relocked(reason))
    case Relocked(reason) => (p.(mu := Free), AfterFlush(c, reason))
    case AddError(reason) => (p.(flushErrors := p.flushErrors + 1), AfterFlush(c, reason))
    case DrainLock => (p.(mu := ByProcessor), Drain)
    case Drain =>
      if p.inCh != [] then (p.(inCh := p.inCh[1..], buffer := p.buffer + [p.inCh[0]]), Drain)
      else if p.buffer == [] then (p, Unlock)
      else (p.(buffer := [], mu := if c.repaired then Free else p.mu), Flush(p.buffer, GracefulShutdown))
    case Unlock => (p.(mu := Free), Leave)
    case Leave => (p, Ended)
  }

  function StepAccumulator(c: Config, s: State, which: Case, flushOk: bool): State
    requires AccumulatorEnabled(s.proc, s.acc, which)
  {
    var (proc', acc') := AccumulatorNext(c, s.proc, s.acc, which, flushOk);
    s.(proc := proc', acc := acc',
       log := s.log.(attempts :=
         if s.acc.Flush? then s.log.attempts + [Attempt(s.acc.batch, s.acc.reason, flushOk)] else s.log.attempts))
  }

  // main

  function StepMain(s: State, clean: bool): State
    requires MainEnabled(s, clean)
  {
    match s.main
    case Serving => s.(main := HttpStopped, accepting := !clean)
    case HttpStopped => s.(main := FlagSet, pool := s.pool.(shuttingDown := true))
    case FlagSet => s.(main := Closed, pool := s.pool.(closed := true))
    case Closed => s.(main := Waiting, pool := s.pool.(ctxDone := true))
    case Waiting => s.(main := Stopping)
    case Stopping => s.(main := Joining, proc := s.proc.(ctxDone := true))
    case Joining => s.(main := Finished)
  }

  // ---- runs ----

  /** `acts` leads from `s` to `t`.  Not recursive itself, so that statements can quantify over runs. */
  ghost predicate Run(c: Config, s: State, acts: seq<Action>, t: State) {
    Leads(c, s, acts, t)
  }

  ghost predicate Leads(c: Config, s: State, acts: seq<Action>, t: State)
    decreases |acts|
  {
    if acts == [] then s == t
    else Enabled(c, s, acts[0]) && Leads(c, Apply(c, s, acts[0]), acts[1..], t)
  }

  lemma {:induction false} RunJoin(c: Config, s: State, a: seq<Action>, t: State, b: seq<Action>, u: State)
    requires Run(c, s, a, t) && Run(c, t, b, u)
    ensures Run(c, s, a + b, u)
    decreases |a|
  {
    if a == [] {
      assert a + b == b;
    } else {
      RunJoin(c, Apply(c, s, a[0]), a[1..], t, b, u);
      assert (a + b)[1..] == a[1..] + b;
    }
  }

  lemma RunOne(c: Config, s: State, a: Action)
    requires Enabled(c, s, a)
    ensures Run(c, s, [a], Apply(c, s, a))
  {
    assert [a][1..] == [];
  }

  lemma Extend(c: Config, s: State, acts: seq<Action>, t: State, a: Action)
    requires Run(c, s, acts, t) && Enabled(c, t, a)
    ensures Run(c, s, acts + [a], Apply(c, t, a))
  {
    RunOne(c, t, a);
    RunJoin(c, s, acts, t, [a], Apply(c, t, a));
  }
}
