# Verification of the telemetry ingestion engine

This project models the two forms of the telemetry ingestion engine and proves what they promise, for every
input, every run and every reachable state:

* **the Go engine** - HTTP producers, the bounded worker pool, the batch accumulator with its mutex, and the
  shutdown sequence of `main` - as one interleaving state machine, and its `Pool` and `Processor` as objects;
* **the rate limiter** - the lazy token bucket and the two-level keyed limiter - as objects, proved against the
  whole request history, with every interleaving of concurrent callers of the keyed limiter;
* **the `IngestionEngine` of `server.ts`** - a single-threaded event loop over a token bucket, a queue, workers
  with delayed release, a batch buffer, reconfiguration and a simulated shutdown - as a class proved against
  value functions, about which the run theorems are proved.

`dafny verify dfyconfig.toml` checks everything.

## How it is organised

| file | content |
|---|---|
| `Events`, `Numbers`, `Sums` | the event record; smaller and larger; sums and multisets over the threads of a pool |
| `RateLimit` | the bucket, its specification by windows over the history, optimality, the class `TokenBucket` |
| `KeyedLimiter` | global bucket plus one bucket per key: interleaving machine, window theorems, the class `KeyedRateLimiter` |
| `Pipeline` | the Go machine: one program counter per thread, one atomic operation per action |
| `PipelineInvariants`, `PipelineTheorems` | what every step keeps; what holds in every reachable state |
| `Shutdown`, `ZeroLoss`, `FinalFlush`, `Witnesses` | late sends, drain, loss and hang of the shutdown, each with its exact condition, and runs from start-up that exhibit them |
| `GoObjects`, `ObjectsInPipeline` | `Pool` and `Processor` with their loops; the machine reaches the same fields when one thread moves alone |
| `EngineModel`, `IngestionEngine` | one function per callback of `server.ts`; the class whose methods perform exactly those functions |
| `EngineEffects` | what each callback does, in terms of the fields alone, and what follows for ticks, timers and shutdowns |
| `EngineRuns`, `EngineStall`, `EngineTiming`, `EngineMetrics`, `EngineFreshness` | order, totals and conservation; the worker feedback; the event rate and the exact limiter; metrics reads; time in the buffer and pacing of flushes |

A Go action is one channel operation, one atomic load or add, or one mutex operation.  Left open, and therefore
quantified over: which thread runs, which ready case a `select` takes, whether `FlushBatch` fails, how many
producers there are and what they send, when metrics readers hold the mutex, and whether the HTTP server stopped
before its deadline.  History variables (everything sent, submitted, dropped, lost, attempted, answered) are
read by no step.

Abstractions: `float64` and JavaScript numbers are reals or integers without rounding, and `uint64` counters are
naturals.  net/http recovers a panicking handler, which takes nothing else with it.  `time.Now` and `Date.now` are
inputs (a theorem that needs a clock that does not run backwards says so), and so are generated ids and timestamps
and the simulated write error.

## What the code does not do as documented

The theorems follow the code.  Where its documentation promises more, the exact condition is proved:

* **Zero drop** (`README.md:81-88`).  The drain loop of a worker ignores the result of `Submit` and counts the
  event as processed (`pool.go:74-77`).  No interleaving drops or loses anything after `close(taskCh)` if and
  only if the events in `taskCh`, in the workers' hands and in `inCh` together fit into `inCh` (`ZeroLossIff`);
  the worst any run drops or loses is exactly what does not fit (`WorstLoss`).  An event can be lost silently if
  and only if they do not fit and `taskCh` is not yet empty (`SilentLossIff`), and the worst silent loss is
  exactly the smaller of what does not fit and what `taskCh` holds (`WorstSilentLoss`).  `main` gives `inCh` half
  the capacity of `taskCh`, so closing with the queue more than half full is enough (`HalfFullQueueCanLose`), and
  every configuration of `main` with a queue capacity of at least 2 and at least one worker has such a run
  (`ZeroDropFailsAsConfigured`).  None of this assumes that the HTTP server stopped cleanly.
* **The unconditional final flush** (`README.md:87`).  `drainAndFlush` calls `doFlush` with `mu` locked, and
  `doFlush` locks `mu` again after a successful write.  `Stop` returns if and only if nothing was left to flush
  or the final write failed; otherwise the batch is committed and counted and the goroutine waits for ever for
  its own mutex (`FinalFlushReturnsIff`, `DeadlockIsForEver`, `ShutdownCanHang`).  The last log line of `main`
  (`main.go:132`) is reached only without a committed final flush (`MainReturnsOnlyWithoutFinalCommit`).  A
  variant that is not in the source, which unlocks before `doFlush`, always returns (`RepairedFlushReturns`).
* **Closing the queue.**  Producers are HTTP handlers (`router.go:102`, `router.go:138`).  A send on the closed
  `taskCh` panics, and net/http recovers a panicking handler: that one request dies and the shutdown goes on.
  After `close(taskCh)` a handler can die so if and only if it has passed the flag check and not yet sent, and
  then no continuation answers its call (`HandlerDiesIff`).  Its event is neither sent nor counted and nothing
  else changes (`DeathIsLocal`), but what its batch had put into the queue before stays accepted without an
  answer (`AnswersAddUp`).  Every configuration with a worker has such a run in which `main` still reaches its
  end (`HandlerCanDie`); a clean stop of the HTTP server rules it out (`CleanStopKillsNone`).
* **The global ceiling per window.**  Counted by the time of the global check it holds (`GlobalWindow`).  Counted
  by completion time some run exceeds it if and only if the global bucket refills and both it and a key's bucket
  can hold a whole token (`CompletionExceedsIff`); with the limits of `main`, if and only if the rate is positive
  and the burst at least 1 (`MainExceedsIff`).  The excess is at most the number of requests that were between
  their two checks when the window began (`CompletionsFrom`).
* **The simulated worker pool** can reach a state in which no worker tick ever moves an event again: a long
  queue makes the release callback declare all workers busy (`StallOnsetIff`, `StallIsAbsorbing`).  A first batch
  of more than 2350 events does it in the default configuration (`FirstBatchStallsIff`).  With all workers free,
  ticks and releases in turn drain a queue if and only if it has at most `75 * workerCount - 50` events
  (`FreshDrainsIff`); beyond the boundary no order of callbacks without a shutdown or a reconfiguration ever
  empties it (`EmptiesIff`).
* **Metrics reads refill the bucket.**  With the limits left alone nothing can tell (`MetricsAreInvisible`).  A
  read just before a reconfiguration can be told if and only if the time since the last refill is paid
  differently under the old and the new limits (`ReadBeforeChangeIff`): for a new rate, unless no time has
  passed or the bucket is full either way (`RateChangeShowsUnless`); for a new burst, only if it is higher and
  the read cut off tokens, or, at a rate below zero, only if the new burst cuts off tokens
  (`BurstChangeShowsUnless`).  Two runs from start-up that differ in one read accept
  different events (`MetricsShowAcrossRateChange`).
* **Flushed events** of `server.ts` include those of failed writes (`server.ts:216-219`): the total is what was
  written if and only if no write has failed (`FlushedIsWrittenIff`), and a run from start-up reports flushed
  events of which none was written (`FlushedCanOverstate`).
* `flushCurrent` (`processor.go:88`) is defined nowhere in the repository.  Nothing closes `inCh`, so the branch
  that calls it cannot be taken and is not in the model.

## Model

| member | source | states |
|---|---|---|
| RateLimit.StoredTokensAreLeastSlack | go-engine/internal/ratelimit/token_bucket.go:33-45 | the one stored number, after the refill, is the minimum of the capacity and of the slacks of all windows that start at the beginning of the history, with the tokens then left, or at an earlier call; from any bucket that is not overfull, whatever the signs and the order of the times |
| RateLimit.AllowNExact | go-engine/internal/ratelimit/token_bucket.go:33-53 | a request for n passes if and only if tokens admitted since every earlier call, or since the beginning, plus n, stay within the window's grant + rate * elapsed |
| RateLimit.WindowBound | go-engine/internal/ratelimit/token_bucket.go:33-53 | in every window of real time at most capacity + rate * length tokens are admitted, for any conforming history with ordered times |
| RateLimit.ConformsIffWithin | go-engine/internal/ratelimit/token_bucket.go:33-53 | for ordered requests, respecting the windows that start at requests and staying within capacity + rate * length in all windows of real time are the same |
| RateLimit.GreedyIsAhead | go-engine/internal/ratelimit/token_bucket.go:28-53 | what another conforming policy has in tokens over the bucket is at most the number of requests it admitted less |
| RateLimit.GreedyOptimal | go-engine/internal/ratelimit/token_bucket.go:28-53 | on unit requests, at every prefix, no policy that respects all window bounds has admitted more requests than the bucket |
| RateLimit.OptimalWithinLimit | go-engine/internal/ratelimit/token_bucket.go:28-53 | on unit requests, at every prefix, no policy that stays within capacity + rate * length in all windows of real time has admitted more requests than the bucket |
| RateLimit.RefillTwice | go-engine/internal/ratelimit/token_bucket.go:37-45 | an extra refill in between changes nothing if time does not run backwards, at a rate that is not negative or, at any rate, for a bucket that is not overfull |
| RateLimit.TokenBucket.constructor | go-engine/internal/ratelimit/token_bucket.go:18-25 | a full bucket with an empty history |
| RateLimit.TokenBucket.AllowN | go-engine/internal/ratelimit/token_bucket.go:33-53 | answers by the window rule on its whole history, for every n and every time, and records the call |
| RateLimit.TokenBucket.Allow | go-engine/internal/ratelimit/token_bucket.go:28-30 | the same for one token |
| RateLimit.TokenBucket.WithinRate | go-engine/internal/ratelimit/token_bucket.go:33-53 | the object itself admits at most capacity + rate * length in every window of ordered calls |
| RateLimit.TokenBucket.AheadOf | go-engine/internal/ratelimit/token_bucket.go:28-53 | on unit requests the object has admitted at least as many as any policy that respects the windows |
| KeyedLimiter.RunKeeps | go-engine/internal/ratelimit/token_bucket.go:82-98 | every interleaving of global checks, bucket lookups and key checks keeps each bucket equal to the replay of its own history, and the histories in agreement with the fates of the requests in every window |
| KeyedLimiter.TicketCompletes | go-engine/internal/ratelimit/token_bucket.go:88-97 | from any reached state a request that passed the global check can be finished, and is answered by the windows over its key's own history; other keys are untouched |
| KeyedLimiter.KeyWindow | go-engine/internal/ratelimit/token_bucket.go:88-97 | over all interleavings, one key gets at most capacity + rate * T requests in any window of length T |
| KeyedLimiter.GlobalWindow | go-engine/internal/ratelimit/token_bucket.go:82-98 | over all interleavings and keys, requests allowed, refused by their key or still between the checks number at most globalCap + globalRate * T, by the time of the global check |
| KeyedLimiter.CompletionExceedsIff | go-engine/internal/ratelimit/token_bucket.go:82-98 | by completion time some run exceeds globalCap + globalRate * T in some window if and only if the global rate is positive and both the global and the key capacity are at least one token |
| KeyedLimiter.MainExceedsIff | go-engine/cmd/server/main.go:88 | with the limits of main, twice the key's rate and burst, if and only if the rate is positive and the burst at least 1 |
| KeyedLimiter.MainWindow | go-engine/cmd/server/main.go:88 | with the limits of main, in every window all keys together pass at most 2 * (burst + rps * T) requests and one key gets at most burst + rps * T |
| KeyedLimiter.MainBuckets | go-engine/cmd/server/main.go:88 | and no less: the global bucket grants up to 2 * burst at start-up and, once emptied, 2 * rps a second, a key's bucket burst and rps |
| KeyedLimiter.CompletionsFrom | go-engine/internal/ratelimit/token_bucket.go:82-98 | from any reached state with w requests between their checks, at most w + globalCap + globalRate * T requests complete in the next T seconds |
| KeyedLimiter.CompletionWindow | go-engine/internal/ratelimit/token_bucket.go:82-98 | in any window, allowed completions beyond the bound are requests that passed the global check before the window |
| KeyedLimiter.CompletionWindowExceeded | go-engine/internal/ratelimit/token_bucket.go:82-98 | for all limits with a positive global rate and capacities of at least one token, a run that completes one request more than the burst at a single instant |
| KeyedLimiter.GlobalTokensAccounted | go-engine/internal/ratelimit/token_bucket.go:84-97 | global tokens taken equal requests allowed plus refused by a key bucket plus between the checks |
| KeyedLimiter.OneBucketPerKey | go-engine/internal/ratelimit/token_bucket.go:89-95 | once created, the bucket of a key is the same for the rest of the run and its history only grows |
| KeyedLimiter.KeyedRateLimiter.constructor | go-engine/internal/ratelimit/token_bucket.go:72-79 | no key buckets, a full global bucket |
| KeyedLimiter.KeyedRateLimiter.Allow | go-engine/internal/ratelimit/token_bucket.go:82-98 | allowed if and only if the global history and the history of the key both allow it; a refused global check touches no key bucket, a refused key check still costs a global token; no other bucket changes |
| KeyedLimiter.KeyedRateLimiter.AllowKey | go-engine/internal/ratelimit/token_bucket.go:88-97 | the key check alone: answered by the history of that key, all other buckets untouched |
| KeyedLimiter.KeyedRateLimiter.Find | go-engine/internal/ratelimit/token_bucket.go:89-95 | returns the existing bucket or installs a fresh full one; replaces none |
| PipelineInvariants.StagesStep | go-engine/cmd/server/main.go:116-130 | every step of every thread respects the shutdown order: which flags are set at which stage, that no worker is left after the wait, that a worker leaves only a closed and empty taskCh, that handlers run only until a clean stop |
| PipelineInvariants.MutexStep | go-engine/internal/batch/processor.go:91-166 | the accumulator owns mu at exactly the program points where the code holds it, including across doFlush in drainAndFlush |
| PipelineInvariants.ReaderExcludes | go-engine/internal/batch/processor.go:175-178 | while a Metrics call holds mu, no step but its unlock takes it away or touches the buffer |
| PipelineInvariants.CallDescends | go-engine/internal/worker/pool.go:96-124 | an EnqueueBatch call never blocks: every step lowers a measure of three for each event still to come |
| PipelineInvariants.CycleDescends | go-engine/internal/batch/processor.go:79-146 | the accumulator's select takes the case that was chosen, and every other step of its loop brings it nearer to the select, whatever the state of channel, mutex and context |
| PipelineInvariants.MainInOrder | go-engine/cmd/server/main.go:116-132 | main goes through its shutdown stages one by one, and handlers stop starting calls exactly on a clean HTTP stop |
| PipelineInvariants.PlacedStep | go-engine/internal/worker/pool.go:67-109 | no step duplicates, invents or forgets an event between Enqueue and Submit |
| PipelineInvariants.StreamedStep | go-engine/internal/batch/processor.go:74-166 | no step reorders or forgets an event between Submit and FlushBatch |
| PipelineInvariants.BatchedStep | go-engine/internal/batch/processor.go:86-166 | every step keeps the size bounds of buffer and batches for each trigger |
| PipelineInvariants.CountedStep | go-engine/internal/worker/pool.go:75-106 | every step keeps the three counters equal to what happened, up to the threads about to count |
| PipelineInvariants.CallsStep | go-engine/internal/worker/pool.go:112-124 | every step keeps the two results of each EnqueueBatch call in progress equal to the events it has dealt with |
| PipelineInvariants.TotalledStep | go-engine/internal/batch/processor.go:116-139 | every step keeps the flush metrics equal to the outcomes, up to the update in progress |
| PipelineTheorems.ExactlyOnce | go-engine/internal/worker/pool.go:67-109 | in every reachable state each event ever sent is in exactly one of taskCh, a worker's hand, inCh, the accumulator (buffer or batch being flushed), a committed batch, a failed batch, dropped at Submit, lost in the drain loop |
| PipelineTheorems.CounterAccounting | go-engine/internal/worker/pool.go:75-106 | accepted plus producers between send and increment equals the events sent, and equals processed + queued + in work + (dropped - rejections by Enqueue); processed counts the silently lost events |
| PipelineTheorems.AnswersAddUp | go-engine/internal/worker/pool.go:112-124 | every EnqueueBatch that returns gives counts that sum to its input length, even if shutdown begins midway; the accepted counter is what callers were told, what calls in progress will be told so far, and what calls that died on a late send had put into the queue; a dead call had dealt with a prefix, died on one event and never tried the rest |
| PipelineTheorems.BatchesPartitionTheStream | go-engine/internal/batch/processor.go:74-166 | flush attempts in order, then what is gathered, then inCh, are the stream of successful Submits; count batches have exactly threshold events, ticker batches 1 to threshold - 1, the final batch at most threshold - 1 + BufferSize, and nothing follows it (a threshold of 0 acts as 1) |
| PipelineTheorems.MetricsMatchOutcomes | go-engine/internal/batch/processor.go:116-139 | once doFlush is past its updates, totalFlushed is the number of committed events, totalBatches the number of committed attempts and flushErrors the number of failed ones |
| PipelineTheorems.MemoryBound | go-engine/internal/batch/processor.go:86-166 | in every reachable state, also during a buffer swap and the final drain, at most queueCap + workers + BufferSize + threshold events are held |
| Shutdown.HandlerDiesIff | go-engine/internal/worker/pool.go:96-109 | after close(taskCh) a live handler can die on its send if and only if it is between its flag check and its send, and then no continuation answers its call |
| Shutdown.DeathIsLocal | go-engine/internal/worker/pool.go:101-108 | the late send is always possible and changes nothing but its own handler: its event unsent and uncounted, its call unanswered, every other thread, channel and counter as before |
| Shutdown.CheckedStillSends | go-engine/internal/worker/pool.go:101-108 | until the close a producer past its flag check still sends, also behind the flag: to the end of taskCh if there is room, else it is rejected |
| Witnesses.HandlerCanDie | go-engine/internal/worker/pool.go:96-109 | on every configuration with a worker, a run from start-up, with an HTTP stop that missed its deadline, kills a handler on its send and still takes main to its end |
| Shutdown.CleanStopKillsNone | go-engine/cmd/server/main.go:116-127 | if the HTTP server stopped within its deadline, no handler is left to die and none has died |
| Shutdown.WorkerDescends | go-engine/internal/worker/pool.go:67-92 | every worker step, before close as after it, lowers a natural measure of queue and program counters |
| Shutdown.DrainIsBounded | go-engine/internal/worker/pool.go:67-92 | in every run after close the workers together take at most that measure of steps, whatever other threads do |
| Shutdown.WorkerNeverBlocks | go-engine/internal/worker/pool.go:67-92 | after close a worker that has not returned can always step |
| Shutdown.NothingLeftBehind | go-engine/internal/worker/pool.go:135-145 | when wg.Wait has returned, taskCh and all hands are empty |
| Shutdown.StreamIsFinal | go-engine/cmd/server/main.go:126-130 | from then on inCh receives nothing and no event is dropped or lost |
| Shutdown.NothingLostBeforeCancel | go-engine/internal/worker/pool.go:72-78 | no event is lost silently before the pool's context is cancelled |
| Shutdown.WorkerLoad | go-engine/internal/worker/pool.go:72-90 | a worker step changes what still has to pass inCh only by submitting to a full inCh, and then loses or drops exactly that event |
| Shutdown.FitsRun | go-engine/internal/worker/pool.go:67-92 | if the load fits into inCh, no run whatsoever drops or loses an event |
| Shutdown.LoseSilently | go-engine/internal/worker/pool.go:72-78 | if it does not fit and a drain loop still has work, some run loses an event that is counted as processed |
| ZeroLoss.OverloadLoses | go-engine/internal/worker/pool.go:71-90 | an overloaded close has a run that drops or loses an event, and loses it silently if taskCh is not empty |
| ZeroLoss.ZeroLossIff | go-engine/internal/worker/pool.go:67-92 | at close, all runs keep every event if and only if taskCh, hands and inCh together fit into inCh |
| ZeroLoss.SilentLossIff | go-engine/internal/worker/pool.go:72-78 | at close, some run loses an event silently if and only if they do not fit and taskCh is not empty |
| ZeroLoss.WorstLoss | go-engine/internal/worker/pool.go:67-92 | at close, no run drops or loses more than the part of the load that does not fit into inCh, and some run drops or loses just that much |
| ZeroLoss.WorstSilentLoss | go-engine/internal/worker/pool.go:72-78 | at close, no run loses more events silently than the smaller of what does not fit into inCh and what taskCh holds, and some run loses just that many |
| ZeroLoss.HalfFullQueueCanLose | go-engine/cmd/server/main.go:73-77 | with BufferSize = queueCap / 2, a close with taskCh more than half full has a run that loses an event silently |
| FinalFlush.FinalFlushReturnsIff | go-engine/internal/batch/processor.go:148-172 | wherever a run settles after drainAndFlush began, the goroutine has ended if and only if nothing was left or FlushBatch failed; otherwise it waits for the mutex it owns, with the batch committed and counted |
| FinalFlush.RepairedFlushReturns | go-engine/internal/batch/processor.go:148-172 | unlocking before doFlush, a variant of the source, always lets it end, with everything left attempted in one batch |
| FinalFlush.FinalStepDescends | go-engine/internal/batch/processor.go:116-166 | each accumulator step of the final drain lowers a ranking function, in both variants |
| FinalFlush.FinalDrainIsBounded | go-engine/internal/batch/processor.go:148-166 | in every run the accumulator takes at most the length of inCh plus 12 steps once it is in the final drain |
| FinalFlush.DeadlockIsForEver | go-engine/internal/batch/processor.go:137-172 | no run leaves the self-deadlock; main never finishes, and no Metrics call gets the mutex again |
| FinalFlush.MainReturnsOnlyWithoutFinalCommit | go-engine/cmd/server/main.go:126-132 | main reaches its end only if no final flush committed |
| FinalFlush.ShutdownEndsOrDeadlocks | go-engine/cmd/server/main.go:126-130 | after close the shutdown can come to rest only at the end of main or in the self-deadlock |
| FinalFlush.ZeroDrop | go-engine/cmd/server/main.go:126-130 | if the load fits at close, then at the accumulator's end every event ever sent was passed to FlushBatch exactly once, except those dropped before the close; with a storage that never fails all those are committed |
| Witnesses.FillAndClose | go-engine/cmd/server/main.go:116-127 | from start-up, any sequence up to the queue capacity can be what taskCh holds at a clean close |
| Witnesses.ZeroDropFailsAsConfigured | go-engine/cmd/server/main.go:73-77 | for every CHANNEL_BUFFER_CAP from 2 on and every positive number of workers, some run from start-up with a clean stop loses an accepted event |
| Witnesses.FinishWorkers | go-engine/internal/worker/pool.go:135-145 | after close the workers can always be run to their end, whatever the accumulator does |
| Witnesses.FinishDrain | go-engine/internal/batch/processor.go:148-166 | the final drain can always be run until it settles |
| Witnesses.ShutdownCanHang | go-engine/cmd/server/main.go:126-132 | on every configuration with buffered channels and a worker, one accepted event and a storage that never fails suffice for a run from start-up after which main never finishes |
| GoObjects.Processor.constructor | go-engine/internal/batch/processor.go:43-55 | empty buffer and channel, free mutex, zero metrics |
| GoObjects.Processor.DoFlush | go-engine/internal/batch/processor.go:116-146 | one attempt per non-empty batch, metrics by outcome, blocked exactly if the write succeeded while mu is taken |
| GoObjects.Processor.Accumulate | go-engine/internal/batch/processor.go:86-100 | the head of inCh joins the buffer or completes a batch, which is attempted; never blocks with mu free |
| GoObjects.Processor.Tick | go-engine/internal/batch/processor.go:102-112 | the ticker attempts a non-empty buffer as one batch; never blocks with mu free |
| GoObjects.Processor.DrainAndFlush | go-engine/internal/batch/processor.go:148-166 | buffer and inCh in order become one final attempt; blocked, with mu still locked, exactly if there was something and the write succeeded |
| GoObjects.Processor.Metrics | go-engine/internal/batch/processor.go:175-183 | the snapshot agrees with the answers of FlushBatch so far: flushed is the number of committed events, batches + errors the number of attempts, and errors is 0 if and only if every attempt succeeded |
| GoObjects.Pool.constructor | go-engine/internal/worker/pool.go:41-51 | open, empty, zero counters |
| GoObjects.Pool.Enqueue | go-engine/internal/worker/pool.go:96-109 | rejects without counting when shut, accepts when there is room, else counts a drop |
| GoObjects.Pool.EnqueueBatch | go-engine/internal/worker/pool.go:112-124 | accepts exactly the prefix that fits; the two results sum to the input length; the rest is counted as dropped only if the pool is open |
| GoObjects.Pool.ForwardOne | go-engine/internal/worker/pool.go:80-89 | the head of taskCh goes to inCh and counts as processed if there is room, else counts as dropped |
| GoObjects.Pool.DrainTasks | go-engine/internal/worker/pool.go:72-78 | inCh gets the prefix that fits, taskCh becomes empty, and every event counts as processed |
| GoObjects.Pool.Shutdown | go-engine/internal/worker/pool.go:135-143 | flag, close and cancel; a second call changes nothing |
| ObjectsInPipeline.DrainAlone | go-engine/internal/batch/processor.go:81-84 | from its select, taking the cancel, the machine's accumulator alone reaches the fields that DrainAndFlush computes, and its own mutex in the same case |
| ObjectsInPipeline.AccumulateAlone | go-engine/internal/batch/processor.go:86-100 | from its select, taking the receive, the machine's accumulator alone comes back to its select with the fields and the attempt of Accumulate |
| ObjectsInPipeline.TickAlone | go-engine/internal/batch/processor.go:102-112 | the same when its ticker fires, with the fields and the attempt of Tick |
| ObjectsInPipeline.MetricsAlone | go-engine/internal/batch/processor.go:175-183 | a Metrics call gets mu whenever it is free and leaves everything as it was |
| ObjectsInPipeline.FlushAlone | go-engine/internal/batch/processor.go:116-146 | doFlush in the main loop returns to the select with the metrics of its outcome |
| ObjectsInPipeline.BatchAlone | go-engine/internal/worker/pool.go:112-124 | a producer alone, from the start of a call, gets the answer of EnqueueBatch for all its events, leaves its fields, and is idle again |
| ObjectsInPipeline.TurnAlone | go-engine/internal/worker/pool.go:80-89 | a worker alone, from its select and taking the receive, with taskCh open or closed, is back at its select with the fields of ForwardOne: the head of taskCh is submitted and counted as processed, or dropped and counted so |
| ObjectsInPipeline.ForwardAlone | go-engine/internal/worker/pool.go:72-78 | a worker alone, from its select and taking the cancel, leaves the fields of DrainTasks, loses exactly the suffix that does not fit, in order, and is gone |
| EngineRuns.FlushKeeps | server.ts:186-235 | a flush moves the whole buffer to the end of the flushed stream and keeps the flush totals equal to the flush log |
| EngineRuns.InvStep | server.ts:135-306 | every callback keeps order and totals |
| EngineRuns.FifoAlways | server.ts:135-306 | in every run from start-up, with any reconfiguration and simulated shutdown: flushed batches, then buffer, then queue are the accepted events in acceptance order; totalAccepted is their number; totalProcessed trails what left the queue by exactly what shutdowns drained; failed writes are the error count |
| EngineRuns.IngestRespectsCapacity | server.ts:238-306 | no ingest grows a queue at or over capacity, takes it beyond, or touches what is queued |
| EngineRuns.QueueAlwaysBounded | server.ts:474-484 | in every run from start-up, the queue is at most the larger of the current capacity and its length when the capacity was last lowered |
| EngineRuns.DefaultQueue | server.ts:31 | as started, and while the capacity is left alone, never more than 50000 events are queued |
| EngineRuns.SizesRun | server.ts:482-488 | every run keeps 2 to 256 workers, capacity 500 to 500000, threshold 100 to 50000, window 20 to 5000 ms and a non-negative activeWorkers, whatever reconfigurations ask for |
| EngineRuns.ShutdownIsTemporary | server.ts:462-464 | in every run from start-up, while a simulated shutdown stops the workers a timer that ends it is pending, and when any such timer fires ticks move events again if a worker is free |
| EngineRuns.FlushedIsWrittenIff | server.ts:214-224 | in every run from start-up, totalEventsFlushed is the number of events written if and only if totalBatchErrors is 0; each failed write overstates it |
| EngineRuns.FlushedCanOverstate | server.ts:214-224 | from start-up, any first batch of 1 to 50000 events, a tick and a failing timed flush report min(n, 800) flushed events of which none was written |
| EngineRuns.BatchTakesPrefix | server.ts:277-306 | an admitted batch is accepted as exactly its prefix of length min(n, max(0, capacity - queue length)), with defaults filled in, and the rest counted as dropped |
| EngineRuns.CountBatchesRun | server.ts:140-158 | from any state any run has reached, while workers and threshold are left alone, every count batch has threshold to threshold - 1 + 25 * workerCount events; only the first flush can exceed that, by what the buffer held |
| EngineRuns.DefaultCountBatches | server.ts:30-32 | as started, every count batch has 5000 to 5799 events |
| EngineRuns.EveryEventIsAnswered | server.ts:238-306 | over any run each event offered to an ingest call is accepted, dropped at the full queue, refused by the limiter or (single events only, after the limiter) by validation, exactly one of them; a limited batch counts as one limited request and once more per event |
| EngineStall.StallOnsetIff | server.ts:140-163 | an action stalls the pool if and only if it is the last pending release and sees more than 50 * (workerCount - 1) events, or a reconfiguration without pending release to no more workers than are counted as busy |
| EngineStall.StallIsAbsorbing | server.ts:135-166 | no sequence of callbacks, without a raise of workerCount above activeWorkers, lets a worker tick move an event again; without a shutdown the queue only grows |
| EngineStall.RaiseRevives | server.ts:474-482 | raising workerCount above activeWorkers lets the next tick move events |
| EngineStall.BenignNeverStalls | server.ts:135-166 | if every release sees at most 50 * (workerCount - 1) events and workerCount is never lowered, no run stalls |
| EngineStall.RoundDescends | server.ts:137-165 | within capacity, a tick and its release remove at least min(25, queue) events and stay within capacity |
| EngineStall.WithinCapacityDrains | server.ts:137-165 | so the queue is empty after one round per 25 events |
| EngineStall.BeyondCapacitySticks | server.ts:137-165 | beyond capacity no number of rounds empties it |
| EngineStall.DrainsIff | server.ts:137-165 | an idle engine with free workers ever drains if and only if the queue is at most 25 * free + 50 * (workerCount - 1) |
| EngineStall.FreshDrainsIff | server.ts:137-165 | with all workers free: if and only if at most 75 * workerCount - 50 |
| EngineStall.BeyondNeverDrains | server.ts:137-165 | beyond the boundary no run without shutdown and reconfiguration, with ticks, releases, flushes, metrics reads and ingestion in any order, ever empties the queue |
| EngineStall.EmptiesIff | server.ts:137-165 | some run without shutdown and reconfiguration empties the queue if and only if it is at most 25 * free + 50 * (workerCount - 1) |
| EngineStall.FirstBatchStallsIff | server.ts:137-163 | from start-up, one batch of up to 50000 events, one tick and its release stall the pool, with events queued, if and only if the batch has more than 2350 events |
| EngineTiming.TakeIsApply | server.ts:117-132 | the limiter decides and changes its fields as the token bucket does |
| EngineTiming.RefillIsApply | server.ts:117-122 | a bare refill is a request for nothing |
| EngineTiming.TokensWithinBurst | server.ts:489-493 | no run leaves more tokens than the configured burst |
| EngineTiming.EventRateBound | server.ts:117-132 | from any state any run has reached, single and batch calls together accept at most 50 * (burst + rps * T) events in any window of T seconds while the rate is left alone, whatever else happens |
| EngineTiming.DefaultEventRate | server.ts:34-35 | as started, at most 50 * (20000 + 10000 * T) events are accepted in any T seconds |
| EngineTiming.DefaultTokens | server.ts:34-38 | and no less: the first call gets up to 20000 tokens, and once they are gone a second brings 10000 |
| EngineTiming.LimiterExact | server.ts:117-132 | from any state any run, with any reconfigurations, has reached, while the limits are left alone: a call passes if and only if every window over the calls and metrics reads since has room for it, the first window granting the tokens then left; for any clock |
| EngineMetrics.MetricsAreInvisible | server.ts:328-366 | at any rate, also a negative one, removing all metrics reads from a run leaves every decision, event, flush and counter the same |
| EngineMetrics.ReadBeforeChangeIff | server.ts:328-329 | for every state, update and time, a metrics read just before a reconfiguration is indistinguishable from no read if and only if old and new limits pay the time since the last refill the same or fill the bucket both ways; else a second read at that instant reports other tokens |
| EngineMetrics.RateChangeShowsUnless | server.ts:489 | for a new rate: if and only if no time has passed, the rate is the old one, or the bucket is full at either rate |
| EngineMetrics.BurstChangeShowsUnless | server.ts:490-493 | for a new burst: if and only if it is not higher, or the read had nothing to cut off; at a negative rate, if and only if the new burst cuts off nothing |
| EngineMetrics.HarmlessRead | server.ts:328-366 | in any run from start-up, such a read can be left out and all that follows takes the same course |
| EngineMetrics.MetricsShowAcrossRateChange | server.ts:489-493 | two runs from start-up that differ in one metrics read before a rate change, one accepting one event, the other two |
| EngineFreshness.WaitingIsWithin | server.ts:168-175 | what the ticker has let wait is younger than the window plus the ticker's lateness, counted from its entry or the reference moment |
| EngineFreshness.FreshnessBound | server.ts:168-191 | from any state any run has reached, with the window left alone from there and ticker calls at most d ms apart: every event leaves the buffer within batchFlushWindowMs + d of its entry, or of that state if it was already buffered, whichever trigger flushes and however flushes move lastFlushTime |
| EngineFreshness.FlushesArePaced | server.ts:168-191 | no flush is empty, and each timed flush comes at least the smallest configured window after the flush before it, whatever triggered that one; at least 20 ms under any reconfiguration |
| EngineEffects.TickDoes | server.ts:137-165 | a worker tick takes exactly min(25 * free workers, queue) events, none during a shutdown; busy afterwards are more than k workers if and only if the queue before it was longer than 50 * (k - 1), for every k below workerCount; one release is scheduled, and a buffer at the threshold is flushed whole |
| EngineEffects.SecondTick | server.ts:137-165 | a second tick before the release takes min(25 * (workerCount - busy), queue) |
| EngineEffects.ReleaseDoes | server.ts:161-163 | after a release more than k workers count as busy if and only if more than 50 * k events are queued, for every k below workerCount |
| EngineEffects.FlushTickDoes | server.ts:170-174 | the batch ticker flushes a non-empty buffer exactly when the window has passed since the last flush, as one timed flush with its time and outcome |
| EngineEffects.ShutdownDoes | server.ts:431-472 | a simulated shutdown flushes buffer and queue as one batch, counts nothing as processed, sets one timer, and no tick takes anything, whatever is queued next |
| EngineEffects.ShutdownStopsWorkers | server.ts:137-138 | after it, along any run in which no such timer fires, worker ticks change nothing at all, nothing is processed, and a timer is pending |
| EngineEffects.TimersAccounted | server.ts:161-163 | over any run every shutdown sets one resume timer and every tick that takes events schedules one release; what has not fired is pending |
| EngineEffects.BatchCostIsLeast | server.ts:281 | a batch of n events costs the least whole number of tokens, at least one, that covers n at fifty a token |
| EngineEffects.FillDoes | server.ts:251-253 | of an event exactly a missing timestamp, level or trace id is filled in, the level with INFO |
| EngineEffects.SingleDoes | server.ts:238-274 | limiter, validation and capacity are asked in this order; an event missing service or message is never queued; the token is gone after the limiter; every refusal is counted as what it is |
| EngineEffects.BatchDoes | server.ts:277-306 | one question to the limiter for the least cost and no validation; of a granted batch the prefix that fits is queued, filled in, and the rest dropped; of a refused one each event and the call count as limited |
| EngineEffects.UpdateDoes | server.ts:474-496 | each size asked for becomes the nearest value of its range and 0 leaves it alone; a non-zero rate or burst becomes exactly that; tokens are cut to a new burst; nothing else changes |
| IngestionEngine.IngestionEngine.constructor | server.ts:28-100 | the initial state with its default configuration, in which Valid holds: order, totals, queue bound, size ranges, tokens within the burst |
| IngestionEngine.IngestionEngine.RefillTokens | server.ts:117-122 | never more tokens than the burst, and no later request can tell that the refill took place |
| IngestionEngine.IngestionEngine.AllowRateLimit | server.ts:124-132 | decides as the token bucket does; a granted request never overdraws, a refused one finds too few tokens and is counted, and tokens kept and taken stay within the burst |
| IngestionEngine.IngestionEngine.DoFlush | server.ts:186-235 | appends the whole buffer, in order, to the flushed stream, leaves it empty, and keeps the flush totals in agreement with the flush log |
| IngestionEngine.IngestionEngine.OnBatchTick | server.ts:170-174 | keeps Valid and the flushed stream followed by the buffer; flushes exactly when the window has passed; what is still buffered afterwards is less than a window past the last flush |
| IngestionEngine.IngestionEngine.PushItems | server.ts:150-153 | the loop appends the spliced items in order and counts each |
| IngestionEngine.IngestionEngine.OnWorkerTick | server.ts:137-165 | keeps Valid; takes exactly min(25 * free workers, queue) events; leaves busy what the queue before it needed, and one more; schedules one release; flushes a buffer at the threshold |
| IngestionEngine.IngestionEngine.OnRelease | server.ts:161-163 | keeps Valid; more than k workers count as busy if and only if more than 50 * k events are queued, and all of them if and only if more than 50 * (workerCount - 1) are |
| IngestionEngine.IngestionEngine.IngestSingle | server.ts:238-274 | keeps Valid; status, queue, counters and tokens, with limiter, validation and capacity in this order; the queue grows by the filled-in event exactly if it is accepted |
| IngestionEngine.IngestionEngine.EnqueueAll | server.ts:289-302 | the loop accepts exactly the prefix that fits, in order |
| IngestionEngine.IngestionEngine.IngestBatch | server.ts:277-306 | keeps Valid; the least cost; the queue grows by exactly the accepted prefix, filled in, within capacity unless it was beyond; results add up; a limited batch is dropped whole |
| IngestionEngine.IngestionEngine.GetMetrics | server.ts:328-366 | keeps Valid; if the clock has not run backwards, no later request under the same limits can tell that the read took place |
| IngestionEngine.IngestionEngine.SimulateGracefulShutdown | server.ts:431-472 | keeps Valid; queue and buffer are empty afterwards, and all their events are at the end of the flushed stream, in order; no tick takes anything, whatever is queued next, until its timer; both reported counts |
| IngestionEngine.IngestionEngine.UpdateConfig | server.ts:474-496 | keeps Valid; each size asked for becomes the nearest value of its range, 0 leaves it alone, a non-zero rate or burst becomes exactly that, tokens stay within the burst and never grow, and no event moves |

## Left out

- HTTP routers, JSON decoding, headers and body limits: plumbing; only the accept or drop result is modelled.
- MongoDB connection, indexes and partial unordered writes: `FlushBatch` either succeeds or fails.
- React components, the source browser, the k6 script, build and container files: user interface and tooling.
- Logs, the load generator, `recordLatency`, `getPercentiles`, the rps and eps counters with their ticker, `persistedTimeSeries`, the formatting of `getMetrics`: they feed displays only and would add easy members.
- `QueueStats`, `Available`: reads of single fields.
- `lastFlushTime` of the Go processor: written and never read; its lock is modelled.
- Unbuffered channels: a queue capacity below 2 makes `inCh` unbuffered, and the rendezvous of a send with a waiting receiver is not modelled.
- Fairness of the scheduler and of `select`: progress is stated as bounds on steps, absence of blocked states and existence of runs.
- Rounding of floating point, wrap-around of 64-bit counters, fractional or NaN configuration values.
- The argument limit of JavaScript on `push(...queue)` in the simulated shutdown.
- `isPaused`: never set by the source.
- The restart of the flush interval on a change of the window: the freshness bound keeps the window fixed and takes any spacing of ticker calls as its parameter.
- The deadlock detector of the Go runtime, which aborts a process only when all of its goroutines are blocked.
