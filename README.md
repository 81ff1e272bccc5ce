# Payment dispatch-and-retry workers, modelled in Dafny

PaymentProcessor takes in payments and forwards each one to a downstream payment
processor with an HTTP POST. Each payment that is accepted is recorded in a Redis sorted
set, the ledger `payments:default`. The ledger member is `"{CorrelationId}:{Amount}"`, and
its score is the instant the forward began. The repository holds two snapshots of the
background worker that does this. This project models both, at the level of one
payment's dispatch-and-retry decision.

- **The mature worker** (`PaymentProcessor.Api`):
  - Main workers read the bounded ingestion channel (capacity 10 000). Retry workers, two
    of them, read an unbounded retry channel.
  - Every forward holds one permit of a shared limiter of `MaxConcurrency` permits.
  - A main-path failure enqueues a `RetryPayment` envelope with attempt 0, due 500 ms
    later.
  - A retry-path failure below `MaxRetryAttempts` enqueues a copy of the envelope with
    attempt + 1, due after a capped exponential backoff, `min(1000 * 2^(attempt + 1), 30000)` ms,
    plus a jitter below a tenth of that backoff. A retry-path failure at or above the
    limit drops the payment.
  - A forward that throws is neither counted nor re-queued.
- **The standalone worker** (`PaymentProcessor.Worker`):
  - Four main workers pop from the right end of the Redis list `payments:queue`. Four
    retry workers read an in-memory retry channel.
  - Every forward holds one of eight permits.
  - Every exception of a forward counts as a failure. A failed payment is re-queued
    unchanged, with no attempt limit and no backoff.
  - An entry that deserializes to null is dropped. An entry that is not JSON for a
    payment makes the deserializer throw, which ends that main worker.

Files:

- `payments.dfy` (module `Payments`) holds the values both snapshots share:
  - the payment, whose correlation id is its 36-character Guid text;
  - the record posted downstream;
  - the decimal text of the amount, with its parser;
  - the ledger member text, with its parser;
  - the sorted-set store, and the ledger write (ZADD).
- `api_retry.dfy` (module `ApiRetry`) holds the mature worker's `RetryPayment` envelope
  and its backoff policy:
  - the first-retry envelope;
  - the base delay, the jitter bound and the next envelope;
  - the sleep before an envelope is due;
  - the chain of envelopes a payment passes through when every retry fails.
- `api_worker.dfy` (module `ApiWorker`) holds the mature worker.
  - The loops are modelled as atomic steps on a value `Pipeline`:
    - Take: a worker reads an item and holds it;
    - Start: it obtains a permit, and the forward begins with the clock's reading;
    - Complete: the outcome is handled and the permit released.
  - On `Pipeline` these are proved over whole runs:
    - the invariant (the permit balance, attempt bounds, no forward before its envelope is
      due);
    - conservation of payments: everything admitted is pending in exactly one place, or
      settled as delivered, exhausted or faulted;
    - the ledger's growth.
  - The class `PaymentProcessorWorker` performs the same steps on its fields. Each of its
    methods is proved to produce exactly the step's new state.
- `standalone_worker.dfy` (module `StandaloneWorker`) holds the standalone worker.
  - Its loop iterations are pure step functions on a value `Worker`.
  - The class `PaymentProcessorWorker` runs the iterations, and its two loops run them
    over a sequence of ticks. Each tick is a clock reading and a forward outcome.

Clock readings are integer milliseconds since the epoch. The forward's outcome and the
random jitter are parameters: success status, failure status, or an exception.

## Model

| member | source | states |
|---|---|---|
| Payments.NatTextRoundTrip | PaymentProcessor.Api/Services/PaymentProcessorWorker.cs:188 | Parsing the decimal text of a natural number gives the number back |
| Payments.AmountTextRoundTrip | PaymentProcessor.Api/Services/PaymentProcessorWorker.cs:188 | Parsing the text of any amount, negative ones included, gives the amount back |
| Payments.MemberRoundTrip | PaymentProcessor.Api/Services/PaymentProcessorWorker.cs:188 | The member `"{CorrelationId}:{Amount}"` parses back to the payment it was built from |
| Payments.LedgerMemberInjective | PaymentProcessor.Worker/PaymentProcessorWorker.cs:151 | Two payments share a ledger member iff they are the same payment, so one payment's write never overwrites another's |
| Payments.RecordAddsExactlyOne | PaymentProcessor.Api/Services/PaymentProcessorWorker.cs:185-191 | A ledger write under `payments:default` puts the payment's member in, scored at the given instant. The ledger grows by one member, or by none when it was already there. Every other payment's membership and score and every other key are unchanged |
| Payments.LedgerMember | PaymentProcessor.Api/Services/PaymentProcessorWorker.cs:188 | Specified by `MemberRoundTrip` (it parses back to the payment) and `LedgerMemberInjective` (distinct payments, distinct members) |
| Payments.SortedSetAdd | PaymentProcessor.Api/Services/PaymentProcessorWorker.cs:191 | Specified through `Record` by `RecordAddsExactlyOne` and `RecordKeys` |
| Payments.Record | PaymentProcessor.Api/Services/PaymentProcessorWorker.cs:185-191 | Specified by `RecordAddsExactlyOne` (exactly one member set, at the given score) and `RecordKeys` |
| Payments.RecordKeys | PaymentProcessor.Worker/PaymentProcessorWorker.cs:150-154 | A ledger write adds no key to Redis other than `payments:default` |
| ApiRetry.Pow2Monotone | PaymentProcessor.Api/Services/PaymentProcessorWorker.cs:140 | Powers of two do not decrease with the exponent |
| ApiRetry.BaseDelay | PaymentProcessor.Api/Services/PaymentProcessorWorker.cs:139-140 | `min(1000 * 2^n, 30000)` lies in [1000, 30000], and in [2000, 30000] for every retry (n >= 1) |
| ApiRetry.BaseDelayMonotone | PaymentProcessor.Api/Services/PaymentProcessorWorker.cs:139-140 | The base delay never decreases as the attempt grows |
| ApiRetry.BaseDelayReachesCap | PaymentProcessor.Api/Services/PaymentProcessorWorker.cs:140 | From attempt 5 on, the base delay is the 30 000 ms cap |
| ApiRetry.NextRetry | PaymentProcessor.Api/Services/PaymentProcessorWorker.cs:135-148 | A failed retry yields a new envelope iff attempt < MaxRetryAttempts. The new envelope keeps the payment, has attempt + 1, and is due between base and 1.1 * base after `now` (jitter below base/10). So the wait lies in [2000, 33000) ms |
| ApiRetry.RetryWait | PaymentProcessor.Api/Services/PaymentProcessorWorker.cs:116-121 | The worker sleeps only when the envelope is not yet due, and exactly until it is due. It never wakes before `RetryAt` |
| ApiRetry.Pow2 | PaymentProcessor.Api/Services/PaymentProcessorWorker.cs:140 | `Math.Pow(2, n)` on integers; specified by `Pow2Monotone` and, through `BaseDelay`, by `BaseDelayMonotone` and `BaseDelayReachesCap` |
| ApiRetry.RetryChain | PaymentProcessor.Api/Services/PaymentProcessorWorker.cs:135-151 | The envelopes of a payment whose retries keep failing; specified by `RetryChainShape`, `RetryChainDelays`, `RetryChainLength` and `RetryBudget` |
| ApiRetry.RetryChainShape | PaymentProcessor.Api/Services/PaymentProcessorWorker.cs:144-148 | Along consecutive failures the payment in the envelope never changes, and the attempt grows by exactly one per failure |
| ApiRetry.RetryChainDelays | PaymentProcessor.Api/Services/PaymentProcessorWorker.cs:139-142 | Every later envelope is due between its base delay and 1.1 times its base delay after the failure that produced it |
| ApiRetry.RetryChainLength | PaymentProcessor.Api/Services/PaymentProcessorWorker.cs:135-151 | A failing payment passes through exactly min(failures, MaxRetryAttempts - attempt) + 1 envelopes |
| ApiRetry.RetryBudget | PaymentProcessor.Api/Services/PaymentProcessorWorker.cs:100-151 | From a main-path failure:<br>• a payment gets at most MaxRetryAttempts + 1 retry forwards, and exactly that many when all fail;<br>• every envelope keeps the payment, with 0 <= attempt <= MaxRetryAttempts;<br>• each envelope is backed off from the failure before it;<br>• the nominal delays never decrease |
| ApiWorker.ProcessPayment | PaymentProcessor.Api/Services/PaymentProcessorWorker.cs:161-184 | A forward reports true iff the status was a success, and reports an exception (uncaught in this file) as distinct from false. Only a success writes the store |
| ApiWorker.ProcessPaymentLedger | PaymentProcessor.Api/Services/PaymentProcessorWorker.cs:163-191 | After a success the ledger is the old ledger with the payment's member scored at the forward's start instant, the same instant as the record's `requestedAt`. Other keys are untouched and no key besides `payments:default` is added |
| ApiWorker.CompleteMainEffects | PaymentProcessor.Api/Services/PaymentProcessorWorker.cs:88-107 | The permit is released on every outcome.<br>• Success: only `processedCount` + 1, and the ledger entry is scored at the forward's start.<br>• Failure: only `failedCount` + 1, and exactly one envelope (same payment, attempt 0, due now + 500) is appended.<br>• Exception: no counter and no queue change |
| ApiWorker.CompleteRetryEffects | PaymentProcessor.Api/Services/PaymentProcessorWorker.cs:127-156 | The permit is released on every outcome.<br>• Success: only `processedCount` + 1, plus the ledger entry.<br>• Failure below the limit: only `retryCount` + 1, and one envelope is appended that differs only in attempt + 1 and a backed-off `RetryAt`.<br>• Failure at the limit, or an exception: nothing enqueued and no counter changed |
| ApiWorker.SubmitStep | PaymentProcessor.Api/Program.cs:25-30 | A write to the ingestion channel; specified by `SubmitConserves` and `SubmitKeepsInv` |
| ApiWorker.TakeMainStep | PaymentProcessor.Api/Services/PaymentProcessorWorker.cs:82 | A main worker reads the oldest payment; specified by `TakeMainConserves` and `TakeMainKeepsInv` |
| ApiWorker.StartMainStep | PaymentProcessor.Api/Services/PaymentProcessorWorker.cs:84-90 | A permit is taken and a main-path forward begins; specified by `StartMainConserves`, `StartMainKeepsInv` and `MainRecordTimeIsLedgerScore` |
| ApiWorker.CompleteMainStep | PaymentProcessor.Api/Services/PaymentProcessorWorker.cs:88-107 | A main-path outcome is handled; specified by `CompleteMainEffects`, `CompleteMainConserves` and `CompleteMainKeepsInv` |
| ApiWorker.TakeRetryStep | PaymentProcessor.Api/Services/PaymentProcessorWorker.cs:114-121 | A retry worker reads the oldest envelope and sleeps until it is due; specified by `TakeRetryConserves`, `TakeRetryKeepsInv` and `RetryWait` |
| ApiWorker.StartRetryStep | PaymentProcessor.Api/Services/PaymentProcessorWorker.cs:123-129 | A permit is taken and a retry forward begins; specified by `StartRetryConserves`, `StartRetryKeepsInv` and `RetryRecordTimeIsLedgerScore` |
| ApiWorker.CompleteRetryStep | PaymentProcessor.Api/Services/PaymentProcessorWorker.cs:131-156 | A retry outcome is handled; specified by `CompleteRetryEffects`, `CompleteRetryConserves` and `CompleteRetryKeepsInv` |
| ApiWorker.MainRecordTimeIsLedgerScore | PaymentProcessor.Api/Services/PaymentProcessorWorker.cs:163-179 | The `requestedAt` of the record a main-path forward posts is the score its ledger entry gets on success |
| ApiWorker.RetryRecordTimeIsLedgerScore | PaymentProcessor.Api/Services/PaymentProcessorWorker.cs:163-179 | The same for a retry-path forward: the record's instant is the ledger score |
| ApiWorker.SubmitKeepsInv | PaymentProcessor.Api/Program.cs:25-30 | Writing to the ingestion channel while it holds fewer than 10 000 keeps the invariant |
| ApiWorker.TakeMainKeepsInv | PaymentProcessor.Api/Services/PaymentProcessorWorker.cs:82 | A main worker reading a payment keeps the invariant |
| ApiWorker.StartMainKeepsInv | PaymentProcessor.Api/Services/PaymentProcessorWorker.cs:84-86 | Taking a permit to start a main-path forward keeps the permit balance |
| ApiWorker.CompleteMainKeepsInv | PaymentProcessor.Api/Services/PaymentProcessorWorker.cs:88-107 | Handling a main-path outcome keeps the invariant. A new envelope has attempt 0 |
| ApiWorker.TakeRetryKeepsInv | PaymentProcessor.Api/Services/PaymentProcessorWorker.cs:114-121 | A retry worker reading an envelope holds it until it is due |
| ApiWorker.StartRetryKeepsInv | PaymentProcessor.Api/Services/PaymentProcessorWorker.cs:123-129 | A retry forward starts only once its envelope is due, and takes a permit |
| ApiWorker.CompleteRetryKeepsInv | PaymentProcessor.Api/Services/PaymentProcessorWorker.cs:131-156 | Handling a retry outcome keeps every envelope within 0..MaxRetryAttempts and releases the permit |
| ApiWorker.StepKeepsInv | PaymentProcessor.Api/Services/PaymentProcessorWorker.cs:80-159 | Every step keeps the invariant:<br>• free permits + forwards in flight = MaxConcurrency, and permits are never negative;<br>• the channel holds at most 10 000;<br>• each worker holds at most one item;<br>• every envelope's attempt lies in 0..MaxRetryAttempts;<br>• no retry forward begins before its envelope's `RetryAt` |
| ApiWorker.SubmitConserves | PaymentProcessor.Api/Program.cs:25-30 | A channel write adds exactly the written payment to the pending ones |
| ApiWorker.TakeMainConserves | PaymentProcessor.Api/Services/PaymentProcessorWorker.cs:82 | Reading from the channel moves a payment without losing or duplicating it |
| ApiWorker.StartMainConserves | PaymentProcessor.Api/Services/PaymentProcessorWorker.cs:84-90 | Starting a main-path forward moves the payment without losing or duplicating it |
| ApiWorker.CompleteMainConserves | PaymentProcessor.Api/Services/PaymentProcessorWorker.cs:88-107 | A main-path failure keeps its payment pending (in the retry channel). A success or an exception takes exactly that payment out |
| ApiWorker.TakeRetryConserves | PaymentProcessor.Api/Services/PaymentProcessorWorker.cs:114-121 | Reading from the retry channel moves a payment without losing or duplicating it |
| ApiWorker.StartRetryConserves | PaymentProcessor.Api/Services/PaymentProcessorWorker.cs:123-129 | Starting a retry forward moves the payment without losing or duplicating it |
| ApiWorker.CompleteRetryConserves | PaymentProcessor.Api/Services/PaymentProcessorWorker.cs:131-156 | A retry failure below the limit keeps its payment pending. Anything else takes exactly that payment out |
| ApiWorker.StepConserves | PaymentProcessor.Api/Services/PaymentProcessorWorker.cs:80-159 | For every step: pending before + admitted = pending after + settled (delivered, exhausted or faulted) |
| ApiWorker.MovingStepConserves | PaymentProcessor.Api/Services/PaymentProcessorWorker.cs:82-129 | The same balance for the steps that only admit or move a payment |
| ApiWorker.CompleteMainStepConserves | PaymentProcessor.Api/Services/PaymentProcessorWorker.cs:88-107 | The same balance for a main-path completion, with its settlement |
| ApiWorker.CompleteRetryStepConserves | PaymentProcessor.Api/Services/PaymentProcessorWorker.cs:131-156 | The same balance for a retry completion, where a failure at the limit settles as exhausted |
| ApiWorker.StepLedger | PaymentProcessor.Api/Services/PaymentProcessorWorker.cs:90-95 | Redis changes only on a delivery. It then gains exactly the delivered payment's member, scored at the forward's start, and no key besides `payments:default`; other keys are kept. `processedCount` grows by exactly the number of deliveries |
| ApiWorker.RunKeepsInv | PaymentProcessor.Api/Services/PaymentProcessorWorker.cs:67-159 | The invariant holds after any run of enabled steps |
| ApiWorker.RunConserves | PaymentProcessor.Api/Services/PaymentProcessorWorker.cs:67-159 | Over a run: pending at the end + all settled = pending at the start + all admitted |
| ApiWorker.RunLedger | PaymentProcessor.Api/Services/PaymentProcessorWorker.cs:90-95 | Over a run, `processedCount` grows by the number of deliveries. No ledger member is ever removed, and every delivered payment is in the final ledger |
| ApiWorker.EveryPaymentAccounted | PaymentProcessor.Api/Services/PaymentProcessorWorker.cs:67-159 | From a fresh start, every payment ever written to the channel is either pending in one place or settled once. The invariant holds. `processedCount` equals the number of deliveries, each of which is in the ledger |
| ApiWorker.PaymentProcessorWorker.constructor | PaymentProcessor.Api/Services/PaymentProcessorWorker.cs:55-64 | Starts with empty channels, no counts and MaxConcurrency free permits, in a valid state |
| ApiWorker.PaymentProcessorWorker.Submit | PaymentProcessor.Api/Program.cs:25-30 | Appends the payment to the channel (while not full), keeping the invariant |
| ApiWorker.PaymentProcessorWorker.TakeMain | PaymentProcessor.Api/Services/PaymentProcessorWorker.cs:82 | Moves the oldest channel payment to a main worker's hand |
| ApiWorker.PaymentProcessorWorker.StartMain | PaymentProcessor.Api/Services/PaymentProcessorWorker.cs:84-90 | Takes a permit, starts the forward, and returns the posted record stamped with the start instant |
| ApiWorker.PaymentProcessorWorker.WriteToRedis | PaymentProcessor.Api/Services/PaymentProcessorWorker.cs:185-192 | Adds member `"{id}:{amount}"` under `payments:default` with the given score |
| ApiWorker.PaymentProcessorWorker.ProcessPaymentAsync | PaymentProcessor.Api/Services/PaymentProcessorWorker.cs:161-184 | Produces the outcome and store that `ProcessPayment` specifies. It writes the ledger only on success, at the start instant |
| ApiWorker.PaymentProcessorWorker.CompleteMain | PaymentProcessor.Api/Services/PaymentProcessorWorker.cs:88-107 | Produces exactly `CompleteMainStep`'s new state and keeps the invariant |
| ApiWorker.PaymentProcessorWorker.TakeRetry | PaymentProcessor.Api/Services/PaymentProcessorWorker.cs:114-121 | Moves the oldest envelope to a retry worker's hand, to be held until it is due |
| ApiWorker.PaymentProcessorWorker.StartRetry | PaymentProcessor.Api/Services/PaymentProcessorWorker.cs:123-129 | Takes a permit and starts the forward no earlier than the envelope's `RetryAt`. Returns the posted record |
| ApiWorker.PaymentProcessorWorker.CompleteRetry | PaymentProcessor.Api/Services/PaymentProcessorWorker.cs:131-156 | Produces exactly `CompleteRetryStep`'s new state and keeps the invariant |
| StandaloneWorker.Forward | PaymentProcessor.Worker/PaymentProcessorWorker.cs:122-141 | A forward succeeds iff the status was a success. Every exception, like a failure status, yields false and writes nothing |
| StandaloneWorker.ForwardLedger | PaymentProcessor.Worker/PaymentProcessorWorker.cs:120-154 | A success sets exactly the payment's member, scored at the same `now` used for `requestedAt`, and adds no key besides `payments:default`. A failure leaves Redis unchanged. Other keys are untouched |
| StandaloneWorker.MainStep | PaymentProcessor.Worker/PaymentProcessorWorker.cs:69-89 | One main-loop iteration; specified by `MainStepPopsRight`, `MainStepDropsNonPayments`, `MainStepForwards` and `MainStepConserves` |
| StandaloneWorker.RetryStep | PaymentProcessor.Worker/PaymentProcessorWorker.cs:94-114 | One retry-loop iteration; specified by `RetryStepRequeues` and `RetryStepConserves` |
| StandaloneWorker.MainRun | PaymentProcessor.Worker/PaymentProcessorWorker.cs:67-90 | The main loop over a sequence of ticks, ending at a crash; specified by `MainRunStopsAtCrash` and realised by `ProcessMainQueue` |
| StandaloneWorker.RetryRun | PaymentProcessor.Worker/PaymentProcessorWorker.cs:92-115 | The retry loop over a sequence of ticks; specified by `RetryFailuresRotate` and `FailingRetriesCycle` and realised by `ProcessRetryQueue` |
| StandaloneWorker.MainStepPopsRight | PaymentProcessor.Worker/PaymentProcessorWorker.cs:71-77 | With `payments:queue` empty, a main iteration changes nothing. Otherwise it removes exactly the rightmost entry |
| StandaloneWorker.MainStepDropsNonPayments | PaymentProcessor.Worker/PaymentProcessorWorker.cs:79-81 | A null entry is dropped, and an unparsable one ends the worker. Neither is forwarded, re-queued or ledgered |
| StandaloneWorker.MainStepForwards | PaymentProcessor.Worker/PaymentProcessorWorker.cs:83-88 | A failed forward appends the identical payment to the retry queue and writes nothing. A success records it at `now` and leaves the retry queue alone |
| StandaloneWorker.RetryStepRequeues | PaymentProcessor.Worker/PaymentProcessorWorker.cs:96-113 | On an empty queue nothing changes. On failure the oldest payment goes back unchanged at the end, so length and contents are preserved. On success it leaves the queue and is ledgered |
| StandaloneWorker.MainStepConserves | PaymentProcessor.Worker/PaymentProcessorWorker.cs:71-88 | Payments in the list plus the retry queue = the same afterwards plus what the iteration delivered |
| StandaloneWorker.RetryStepConserves | PaymentProcessor.Worker/PaymentProcessorWorker.cs:96-108 | A retry iteration loses no payment: a failure keeps it waiting, a success delivers it |
| StandaloneWorker.MainRunStopsAtCrash | PaymentProcessor.Worker/PaymentProcessorWorker.cs:67-90 | Once an unparsable entry has ended a main worker, later ticks change nothing |
| StandaloneWorker.RetryFailuresRotate | PaymentProcessor.Worker/PaymentProcessorWorker.cs:92-115 | k consecutive failures (k <= queue length) move the k oldest payments, in order, to the back and write nothing |
| StandaloneWorker.FailingRetriesCycle | PaymentProcessor.Worker/PaymentProcessorWorker.cs:104-108 | With every forward failing, one pass over the queue gives the queue back exactly. There is no attempt bound, so a failing payment is retried forever |
| StandaloneWorker.PaymentProcessorWorker.constructor | PaymentProcessor.Worker/PaymentProcessorWorker.cs:19-52 | Starts with an empty retry channel and all eight permits free |
| StandaloneWorker.PaymentProcessorWorker.WriteToRedis | PaymentProcessor.Worker/PaymentProcessorWorker.cs:148-155 | Adds member `"{id}:{amount}"` under `payments:default` with the given score |
| StandaloneWorker.PaymentProcessorWorker.ProcessPaymentAsync | PaymentProcessor.Worker/PaymentProcessorWorker.cs:116-146 | Returns the permit it took on every path, so the pool is as before. The result and store are as `Forward` specifies. The posted record is stamped with the same `now` that scores the ledger entry |
| StandaloneWorker.PaymentProcessorWorker.MainIteration | PaymentProcessor.Worker/PaymentProcessorWorker.cs:69-89 | Produces exactly the result and state of `MainStep`, with all permits back |
| StandaloneWorker.PaymentProcessorWorker.RetryIteration | PaymentProcessor.Worker/PaymentProcessorWorker.cs:94-114 | Produces exactly the result and state of `RetryStep`, with all permits back |
| StandaloneWorker.PaymentProcessorWorker.ProcessMainQueue | PaymentProcessor.Worker/PaymentProcessorWorker.cs:67-90 | The main loop over a sequence of ticks ends in `MainRun`'s state, stopping early only at an unparsable entry |
| StandaloneWorker.PaymentProcessorWorker.ProcessRetryQueue | PaymentProcessor.Worker/PaymentProcessorWorker.cs:92-115 | The retry loop over a sequence of ticks ends in `RetryRun`'s state |

## Left out

- Concurrency: the parallel tasks, `Task.WhenAll`, `TaskFactory.StartNew` and real suspension on the limiter and the channels are modelled as atomic steps run one at a time. The limiter is an integer permit count. Interleavings appear only as the order in which steps are chosen.
- HTTP and Redis I/O are not modelled as calls. `PostAsJsonAsync` becomes an outcome parameter: success status, failure status or exception. `SortedSetAddAsync` becomes an immediate map update. The write is fire-and-forget in the source, and its own failure is not modelled. `ListRightPopAsync` becomes taking the last element of a sequence. The client setup, timeouts and the startup `KeyDelete` in `RedisConnection` are left out.
- `Inv`, `ApiWorker.PaymentProcessorWorker.StartRetry` and `StartRetryKeepsInv` assume that the retry worker's `Task.Delay` (line 120 of the Api worker) sleeps for the whole `RetryAt - now`, so that no retry forward begins before `RetryAt`. .NET truncates that delay to whole milliseconds, and timer resolution can end a sleep early, so the real worker may forward a retry slightly before it is due.
- Clock and randomness: `DateTime.UtcNow` and `Random.Shared` are parameters. The jitter is required to lie in [0, base/10), as `Random.Next`'s exclusive bound gives.
- Floating point and formatting: the `double` score, `Math.Pow`, the ISO-8601 `"o"` timestamp and the default `ToString` of the amount are left out. Instants are integer milliseconds, and the amount is an integer number of minor units whose text is its decimal numeral.
- JSON: the standalone worker's list entries are given already classified as a payment, the null literal, or text that does not deserialize. The parser is not modelled.
- Cancellation and shutdown: the cancellation token, `Dispose` and completion of the retry channel are left out.
- The Api worker's unused `maxConcurrency` field (line 62 of its file) is left out. The limiter's size is the `MaxConcurrency` option (line 63).
- The Api counters `processedCount`, `failedCount` and `retryCount` are `long` in the source. Their overflow is not modelled.
- The standalone retry loop's `payment is null` branch (lines 98-102) is not modelled: only non-null payments are ever written to that channel. The standalone worker reads only two of its options, `PooledConnectionLifetimeMinutes` and `PooledConnectionIdleTimeoutMinutes` (lines 28-29), for its HTTP handler, which is left out. Its limiter is fixed at 8 permits (line 19).
- The ingestion channel's writer is not part of this model. `Submit` models any producer writing to the bounded channel of `PaymentProcessor.Api/Program.cs`.
- The model keeps these behaviours of the code as written:
  - the code takes an item before it waits for a permit (lines 82-84 and 114-123 of the Api worker), so held items are modelled explicitly;
  - an exception in an Api forward is not caught: the payment is lost without a counter, and it settles as `Faulted`;
  - retry exhaustion drops the payment without incrementing any counter;
  - a payment gets one main-path forward and up to MaxRetryAttempts + 1 retry forwards;
  - the backoff exponent is the next attempt number.

## Verifying

```
dafny verify --resource-limit 2000000 --verification-time-limit 0 --warn-contradictory-assumptions payments.dfy api_retry.dfy api_worker.dfy standalone_worker.dfy
```
