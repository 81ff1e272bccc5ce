/** The mature background worker (PaymentProcessor.Api): main workers drain the ingestion
    channel, retry workers drain the retry channel, and every forward holds one permit of
    a shared limiter from the moment it is started until its outcome has been handled.

    The concurrent loops are modelled as atomic steps run one at a time:
      TakeMain / TakeRetry   a worker reads one item and holds it (a retry worker also
                             computes how long it must sleep before the item is eligible);
      StartMain / StartRetry the worker obtains a permit and the forward task begins, its
                             PaymentRecord stamped with the clock of that instant;
      CompleteMain / CompleteRetry  the forward's outcome is handled and the permit released.
    The clock, the random jitter and the forward's outcome are parameters.

    The steps are first defined on a value, Pipeline, where conservation of payments, the
    limiter's balance and the ledger's growth are proved; the class PaymentProcessorWorker
    then performs the same steps on its fields and is proved to follow them. */
module ApiWorker {
  import opened Payments
  import opened ApiRetry

  /** Capacity of the bounded ingestion channel; a writer waits while it is full. */
  const ChannelCapacity: int := 10000
  /** Number of retry-queue workers the service starts. */
  const RetryWorkers: int := 2

  /** A forward started from the main path. */
  datatype MainTask = MainTask(payment: Payment, requestedAt: int)
  /** A forward started from the retry path, with the envelope it came from. */
  datatype RetryTask = RetryTask(envelope: RetryPayment, requestedAt: int)
  /** An envelope a retry worker has read and holds until `resumeAt`. */
  datatype HeldRetry = HeldRetry(envelope: RetryPayment, resumeAt: int)

  function Remove<T>(s: seq<T>, i: nat): (r: seq<T>)
    requires i < |s|
    ensures |r| == |s| - 1
    ensures forall k :: 0 <= k < |r| ==> r[k] == if k < i then s[k] else s[k + 1]
  {
    s[..i] + s[i + 1..]
  }

  // ---------------------------------------------------------------------------
  // Which payment each kind of item carries, and the payments in a sequence of items.

  function MainTaskPayment(t: MainTask): Payment { t.payment }
  function RetryTaskPayment(t: RetryTask): Payment { t.envelope.payment }
  function HeldPayment(h: HeldRetry): Payment { h.envelope.payment }
  function EnvelopePayment(e: RetryPayment): Payment { e.payment }

  /** The payments carried by a sequence of items, in order. */
  function PaymentsOf<T>(s: seq<T>, f: T -> Payment): (r: seq<Payment>)
    ensures |r| == |s| && forall k :: 0 <= k < |s| ==> r[k] == f(s[k])
  {
    seq(|s|, k requires 0 <= k < |s| => f(s[k]))
  }

  /** Removing an item takes exactly its payment out of the sequence's payments. */
  lemma PaymentsOfRemove<T>(s: seq<T>, i: nat, f: T -> Payment)
    requires i < |s|
    ensures multiset(PaymentsOf(s, f)) == multiset(PaymentsOf(Remove(s, i), f)) + multiset{f(s[i])}
  {
    var ps := PaymentsOf(s, f);
    assert PaymentsOf(Remove(s, i), f) == ps[..i] + ps[i + 1..];
    assert ps == ps[..i] + [ps[i]] + ps[i + 1..];
  }

  /** Appending an item adds exactly its payment. */
  lemma PaymentsOfAppend<T>(s: seq<T>, x: T, f: T -> Payment)
    ensures multiset(PaymentsOf(s + [x], f)) == multiset(PaymentsOf(s, f)) + multiset{f(x)}
  {
    assert PaymentsOf(s + [x], f) == PaymentsOf(s, f) + [f(x)];
  }

  /** Taking the first item takes exactly its payment. */
  lemma PaymentsOfFront<T>(s: seq<T>, f: T -> Payment)
    requires s != []
    ensures multiset(PaymentsOf(s, f)) == multiset{f(s[0])} + multiset(PaymentsOf(s[1..], f))
  {
    assert PaymentsOf(s, f) == [f(s[0])] + PaymentsOf(s[1..], f);
  }

  lemma MultisetRemove<T>(s: seq<T>, i: nat)
    requires i < |s|
    ensures multiset(s) == multiset(Remove(s, i)) + multiset{s[i]}
  {
    assert s == s[..i] + [s[i]] + s[i + 1..];
  }

  lemma MultisetFront<T>(s: seq<T>)
    requires s != []
    ensures multiset(s) == multiset{s[0]} + multiset(s[1..])
  {
    assert s == [s[0]] + s[1..];
  }

  // ---------------------------------------------------------------------------
  // One forward.

  /** How a forward of `p`, begun when the clock read `now`, ends: `success` is None when
      the POST threw (the exception leaves the forward task), otherwise whether the
      response was a success status; `store` is Redis afterwards. */
  datatype Forwarded = Forwarded(success: Option<bool>, store: Store)

  /** A forward reports success exactly on a success status and writes the ledger only
      then; a throw is told apart from a failure status. */
  function ProcessPayment(store: Store, p: Payment, now: int, outcome: Outcome): (r: Forwarded)
    ensures r.success == Some(true) <==> outcome == Success2xx
    ensures r.success == None <==> outcome == Threw
    ensures r.success != Some(true) ==> r.store == store
  {
    match outcome
    case Success2xx => Forwarded(Some(true), Record(store, p, now))
    case NonSuccess => Forwarded(Some(false), store)
    case Threw => Forwarded(None, store)
  }

  /** After a successful forward the payment is in the ledger, scored at the instant the
      forward began, and nothing else in the store has changed. */
  lemma ProcessPaymentLedger(store: Store, p: Payment, now: int, outcome: Outcome)
    ensures var r := ProcessPayment(store, p, now, outcome);
            r.success == Some(true) ==>
              LedgerMember(p) in Ledger(r.store) && Ledger(r.store)[LedgerMember(p)] == now &&
              Ledger(r.store) == Ledger(store)[LedgerMember(p) := now] &&
              r.store.Keys == store.Keys + {LedgerKey} &&
              (forall k :: k in store && k != LedgerKey ==> k in r.store && r.store[k] == store[k])
  {
    if outcome == Success2xx {
      RecordAddsExactlyOne(store, p, now);
      RecordKeys(store, p, now);
      LedgerUpdate(store, p, now);
    }
  }

  // ---------------------------------------------------------------------------
  // The worker's state as a value, and its steps.

  /** The MaxConcurrency and MaxRetryAttempts options and the number of main workers
      (one per processor). */
  datatype Options = Options(maxConcurrency: int, maxRetryAttempts: int, mainWorkers: int)

  /** The limiter cannot be built with an empty pool, and at least one main worker runs. */
  predicate ValidOptions(o: Options) {
    o.maxConcurrency > 0 && o.mainWorkers > 0
  }

  /** The highest attempt number an envelope can carry. */
  function AttemptCeiling(o: Options): (c: int)
    ensures c >= 0 && c >= o.maxRetryAttempts
  {
    if o.maxRetryAttempts < 0 then 0 else o.maxRetryAttempts
  }

  datatype Pipeline = Pipeline(
    mainQueue: seq<Payment>,          // the ingestion channel, oldest first
    mainHeld: seq<Payment>,           // read by a main worker that waits for a permit
    mainInFlight: seq<MainTask>,
    retryQueue: seq<RetryPayment>,    // the unbounded retry channel, oldest first
    retryHeld: seq<HeldRetry>,        // read by a retry worker that sleeps or waits for a permit
    retryInFlight: seq<RetryTask>,
    permits: int,                     // free permits of the limiter
    store: Store,
    processedCount: int,
    failedCount: int,
    retryCount: int)

  /** The state the service starts in. */
  function Initial(o: Options, store: Store): Pipeline {
    Pipeline([], [], [], [], [], [], o.maxConcurrency, store, 0, 0, 0)
  }

  predicate Inv(o: Options, s: Pipeline) {
    ValidOptions(o) &&
    |s.mainQueue| <= ChannelCapacity &&
    |s.mainHeld| <= o.mainWorkers && |s.retryHeld| <= RetryWorkers &&
    // the limiter: a permit is out exactly while its forward is in flight
    0 <= s.permits && s.permits + |s.mainInFlight| + |s.retryInFlight| == o.maxConcurrency &&
    // envelopes stay within the attempt budget, and none is forwarded before it is due
    (forall k :: 0 <= k < |s.retryQueue| ==> 0 <= s.retryQueue[k].attempt <= AttemptCeiling(o)) &&
    (forall k :: 0 <= k < |s.retryHeld| ==>
       0 <= s.retryHeld[k].envelope.attempt <= AttemptCeiling(o) &&
       s.retryHeld[k].resumeAt >= s.retryHeld[k].envelope.retryAt) &&
    (forall k :: 0 <= k < |s.retryInFlight| ==>
       0 <= s.retryInFlight[k].envelope.attempt <= AttemptCeiling(o) &&
       s.retryInFlight[k].requestedAt >= s.retryInFlight[k].envelope.retryAt) &&
    0 <= s.processedCount && 0 <= s.failedCount && 0 <= s.retryCount
  }

  /** The payments waiting in each place a payment can be: the ingestion channel, held by
      a main worker, forwarded from the main path, the retry channel, held by a retry
      worker, forwarded from the retry path. */
  function Places(s: Pipeline): seq<multiset<Payment>> {
    [multiset(s.mainQueue), multiset(s.mainHeld),
     multiset(PaymentsOf(s.mainInFlight, MainTaskPayment)),
     multiset(PaymentsOf(s.retryQueue, EnvelopePayment)),
     multiset(PaymentsOf(s.retryHeld, HeldPayment)),
     multiset(PaymentsOf(s.retryInFlight, RetryTaskPayment))]
  }

  function Sum(bags: seq<multiset<Payment>>): multiset<Payment>
    decreases |bags|
  {
    if bags == [] then multiset{} else bags[0] + Sum(bags[1..])
  }

  /** Every payment still somewhere in the pipeline, wherever it waits. */
  function Pending(s: Pipeline): multiset<Payment> {
    Sum(Places(s))
  }

  lemma PendingParts(s: Pipeline)
    ensures Pending(s) ==
            multiset(s.mainQueue) + multiset(s.mainHeld) +
            multiset(PaymentsOf(s.mainInFlight, MainTaskPayment)) +
            multiset(PaymentsOf(s.retryQueue, EnvelopePayment)) +
            multiset(PaymentsOf(s.retryHeld, HeldPayment)) +
            multiset(PaymentsOf(s.retryInFlight, RetryTaskPayment))
  {
    var b := Places(s);
    assert Sum(b[5..]) == b[5] by { assert b[5..][1..] == []; }
    assert Sum(b[4..]) == b[4] + Sum(b[5..]) by { assert b[4..][1..] == b[5..]; }
    assert Sum(b[3..]) == b[3] + Sum(b[4..]) by { assert b[3..][1..] == b[4..]; }
    assert Sum(b[2..]) == b[2] + Sum(b[3..]) by { assert b[2..][1..] == b[3..]; }
    assert Sum(b[1..]) == b[1] + Sum(b[2..]) by { assert b[1..][1..] == b[2..]; }
  }

  /** A producer writes `p` to the ingestion channel. */
  function SubmitStep(s: Pipeline, p: Payment): Pipeline {
    s.(mainQueue := s.mainQueue + [p])
  }

  /** A free main worker reads the oldest payment. */
  function TakeMainStep(s: Pipeline): Pipeline
    requires s.mainQueue != []
  {
    s.(mainQueue := s.mainQueue[1..], mainHeld := s.mainHeld + [s.mainQueue[0]])
  }

  /** Held payment `i` obtains a permit and its forward begins at `requestedAt`. */
  function StartMainStep(s: Pipeline, i: nat, requestedAt: int): Pipeline
    requires i < |s.mainHeld|
  {
    s.(mainHeld := Remove(s.mainHeld, i),
       mainInFlight := s.mainInFlight + [MainTask(s.mainHeld[i], requestedAt)],
       permits := s.permits - 1)
  }

  /** The outcome of main-path forward `i` is handled when the clock reads `now`:
      a success is counted, a failure is counted and scheduled for its first retry,
      a throw leaves the task; the permit is released in every case. */
  function CompleteMainStep(s: Pipeline, i: nat, outcome: Outcome, now: int): Pipeline
    requires i < |s.mainInFlight|
  {
    var t := s.mainInFlight[i];
    var f := ProcessPayment(s.store, t.payment, t.requestedAt, outcome);
    var s1 := s.(mainInFlight := Remove(s.mainInFlight, i), permits := s.permits + 1, store := f.store);
    match f.success
    case Some(true) => s1.(processedCount := s.processedCount + 1)
    case Some(false) =>
      s1.(failedCount := s.failedCount + 1, retryQueue := s.retryQueue + [FirstRetry(t.payment, now)])
    case None => s1
  }

  /** A free retry worker reads the oldest envelope when the clock reads `now` and
      sleeps until the envelope is due. */
  function TakeRetryStep(s: Pipeline, now: int): Pipeline
    requires s.retryQueue != []
  {
    var e := s.retryQueue[0];
    s.(retryQueue := s.retryQueue[1..],
       retryHeld := s.retryHeld + [HeldRetry(e, now + RetryWait(e.retryAt, now))])
  }

  /** Held envelope `i` obtains a permit and its forward begins at `requestedAt`. */
  function StartRetryStep(s: Pipeline, i: nat, requestedAt: int): Pipeline
    requires i < |s.retryHeld|
  {
    s.(retryHeld := Remove(s.retryHeld, i),
       retryInFlight := s.retryInFlight + [RetryTask(s.retryHeld[i].envelope, requestedAt)],
       permits := s.permits - 1)
  }

  /** The outcome of retry-path forward `i` is handled when the clock reads `now`; a
      failure within the budget is counted and re-enqueued with the backoff drawn with
      `jitter`, a failure past it is dropped uncounted. */
  function CompleteRetryStep(o: Options, s: Pipeline, i: nat, outcome: Outcome, now: int, jitter: int)
    : Pipeline
    requires i < |s.retryInFlight|
    requires RetryJitterFits(o, s.retryInFlight[i].envelope, outcome, jitter)
  {
    var t := s.retryInFlight[i];
    var f := ProcessPayment(s.store, t.envelope.payment, t.requestedAt, outcome);
    var s1 := s.(retryInFlight := Remove(s.retryInFlight, i), permits := s.permits + 1, store := f.store);
    match f.success
    case Some(true) => s1.(processedCount := s.processedCount + 1)
    case Some(false) =>
      if t.envelope.attempt < o.maxRetryAttempts then
        var next := NextRetry(t.envelope, o.maxRetryAttempts, now, jitter).value;
        s1.(retryCount := s.retryCount + 1, retryQueue := s.retryQueue + [next])
      else s1
    case None => s1
  }

  /** `jitter` is what the random source can yield for the retry a failed forward of
      `env` schedules (anything will do when none is scheduled). */
  predicate RetryJitterFits(o: Options, env: RetryPayment, outcome: Outcome, jitter: int) {
    outcome == NonSuccess ==>
      env.attempt >= 0 && (env.attempt < o.maxRetryAttempts ==> ValidJitter(env.attempt + 1, jitter))
  }

  // ---------------------------------------------------------------------------
  // Steps as actions, so that whole runs can be reasoned about.

  datatype Action =
    | Submit(p: Payment)
    | TakeMain
    | StartMain(i: nat, requestedAt: int)
    | CompleteMain(i: nat, outcome: Outcome, now: int)
    | TakeRetry(now: int)
    | StartRetry(i: nat, requestedAt: int)
    | CompleteRetry(i: nat, outcome: Outcome, now: int, jitter: int)

  /** When each step can happen: a writer waits while the channel is full, a worker waits
      for an item and for a permit, a retry worker for its envelope to be due. */
  predicate Enabled(o: Options, s: Pipeline, a: Action) {
    match a
    case Submit(_) => |s.mainQueue| < ChannelCapacity
    case TakeMain => s.mainQueue != [] && |s.mainHeld| < o.mainWorkers
    case StartMain(i, _) => i < |s.mainHeld| && s.permits > 0
    case CompleteMain(i, _, _) => i < |s.mainInFlight|
    case TakeRetry(_) => s.retryQueue != [] && |s.retryHeld| < RetryWorkers
    case StartRetry(i, requestedAt) =>
      i < |s.retryHeld| && s.permits > 0 && requestedAt >= s.retryHeld[i].resumeAt
    case CompleteRetry(i, outcome, _, jitter) =>
      i < |s.retryInFlight| && RetryJitterFits(o, s.retryInFlight[i].envelope, outcome, jitter)
  }

  function Next(o: Options, s: Pipeline, a: Action): Pipeline
    requires Enabled(o, s, a)
  {
    match a
    case Submit(p) => SubmitStep(s, p)
    case TakeMain => TakeMainStep(s)
    case StartMain(i, requestedAt) => StartMainStep(s, i, requestedAt)
    case CompleteMain(i, outcome, now) => CompleteMainStep(s, i, outcome, now)
    case TakeRetry(now) => TakeRetryStep(s, now)
    case StartRetry(i, requestedAt) => StartRetryStep(s, i, requestedAt)
    case CompleteRetry(i, outcome, now, jitter) => CompleteRetryStep(o, s, i, outcome, now, jitter)
  }

  /** How a payment leaves the pipeline. */
  datatype Fate = Delivered | Exhausted | Faulted
  datatype Settlement = Settlement(payment: Payment, fate: Fate)

  /** The payment a step takes out of the pipeline, and why, if any. */
  function Settles(o: Options, s: Pipeline, a: Action): Option<Settlement>
    requires Enabled(o, s, a)
  {
    match a
    case CompleteMain(i, outcome, _) =>
      var p := s.mainInFlight[i].payment;
      (match outcome
       case Success2xx => Some(Settlement(p, Delivered))
       case NonSuccess => None
       case Threw => Some(Settlement(p, Faulted)))
    case CompleteRetry(i, outcome, _, _) =>
      var e := s.retryInFlight[i].envelope;
      (match outcome
       case Success2xx => Some(Settlement(e.payment, Delivered))
       case NonSuccess => if e.attempt < o.maxRetryAttempts then None else Some(Settlement(e.payment, Exhausted))
       case Threw => Some(Settlement(e.payment, Faulted)))
    case _ => None
  }

  function Admits(a: Action): multiset<Payment> {
    if a.Submit? then multiset{a.p} else multiset{}
  }

  function SettledBag(r: Option<Settlement>): multiset<Payment> {
    if r.Some? then multiset{r.value.payment} else multiset{}
  }

  function DeliveredBag(r: Option<Settlement>): multiset<Payment> {
    if r.Some? && r.value.fate == Delivered then multiset{r.value.payment} else multiset{}
  }

  // ---------------------------------------------------------------------------
  // What each step keeps.

  lemma SubmitKeepsInv(o: Options, s: Pipeline, p: Payment)
    requires Inv(o, s) && |s.mainQueue| < ChannelCapacity
    ensures Inv(o, SubmitStep(s, p))
  {
  }

  lemma TakeMainKeepsInv(o: Options, s: Pipeline)
    requires Inv(o, s) && s.mainQueue != [] && |s.mainHeld| < o.mainWorkers
    ensures Inv(o, TakeMainStep(s))
  {
  }

  lemma StartMainKeepsInv(o: Options, s: Pipeline, i: nat, requestedAt: int)
    requires Inv(o, s) && i < |s.mainHeld| && s.permits > 0
    ensures Inv(o, StartMainStep(s, i, requestedAt))
  {
  }

  lemma CompleteMainKeepsInv(o: Options, s: Pipeline, i: nat, outcome: Outcome, now: int)
    requires Inv(o, s) && i < |s.mainInFlight|
    ensures Inv(o, CompleteMainStep(s, i, outcome, now))
  {
  }

  lemma TakeRetryKeepsInv(o: Options, s: Pipeline, now: int)
    requires Inv(o, s) && s.retryQueue != [] && |s.retryHeld| < RetryWorkers
    ensures Inv(o, TakeRetryStep(s, now))
  {
    var s' := TakeRetryStep(s, now);
    forall k | 0 <= k < |s'.retryQueue|
      ensures 0 <= s'.retryQueue[k].attempt <= AttemptCeiling(o)
    {
      assert s'.retryQueue[k] == s.retryQueue[k + 1];
    }
  }

  lemma StartRetryKeepsInv(o: Options, s: Pipeline, i: nat, requestedAt: int)
    requires Inv(o, s) && i < |s.retryHeld| && s.permits > 0
    requires requestedAt >= s.retryHeld[i].resumeAt
    ensures Inv(o, StartRetryStep(s, i, requestedAt))
  {
  }

  lemma CompleteRetryKeepsInv(o: Options, s: Pipeline, i: nat, outcome: Outcome, now: int, jitter: int)
    requires Inv(o, s) && i < |s.retryInFlight|
    requires RetryJitterFits(o, s.retryInFlight[i].envelope, outcome, jitter)
    ensures Inv(o, CompleteRetryStep(o, s, i, outcome, now, jitter))
  {
  }

  /** Handling a main-path outcome always releases the permit and retires the task. A
      success bumps only the processed counter and records the payment, scored at the
      instant its forward began; a failure bumps only the failed counter and enqueues one
      first-retry envelope of the same payment; a throw changes no counter and no queue. */
  lemma CompleteMainEffects(s: Pipeline, i: nat, outcome: Outcome, now: int)
    requires i < |s.mainInFlight|
    ensures var t := s.mainInFlight[i];
            var s' := CompleteMainStep(s, i, outcome, now);
            s'.permits == s.permits + 1 && s'.mainInFlight == Remove(s.mainInFlight, i) &&
            s'.retryCount == s.retryCount &&
            (outcome == Success2xx ==>
               s'.processedCount == s.processedCount + 1 && s'.failedCount == s.failedCount &&
               s'.retryQueue == s.retryQueue &&
               Ledger(s'.store) == Ledger(s.store)[LedgerMember(t.payment) := t.requestedAt]) &&
            (outcome == NonSuccess ==>
               s'.processedCount == s.processedCount && s'.failedCount == s.failedCount + 1 &&
               s'.retryQueue == s.retryQueue + [RetryPayment(t.payment, 0, now + FirstRetryDelayMs)] &&
               s'.store == s.store) &&
            (outcome == Threw ==>
               s'.processedCount == s.processedCount && s'.failedCount == s.failedCount &&
               s'.retryQueue == s.retryQueue && s'.store == s.store)
  {
    var t := s.mainInFlight[i];
    ProcessPaymentLedger(s.store, t.payment, t.requestedAt, outcome);
  }

  /** Handling a retry-path outcome always releases the permit and retires the task. A
      success bumps only the processed counter and records the payment; a failure within
      the budget bumps only the retry counter and enqueues one envelope that differs from
      the old one only in its attempt, one higher, and its due instant, backed off from
      `now`; a failure past the budget and a throw change no counter and no queue. */
  lemma CompleteRetryEffects(o: Options, s: Pipeline, i: nat, outcome: Outcome, now: int, jitter: int)
    requires i < |s.retryInFlight|
    requires RetryJitterFits(o, s.retryInFlight[i].envelope, outcome, jitter)
    ensures var t := s.retryInFlight[i];
            var e := t.envelope;
            var s' := CompleteRetryStep(o, s, i, outcome, now, jitter);
            s'.permits == s.permits + 1 && s'.retryInFlight == Remove(s.retryInFlight, i) &&
            s'.failedCount == s.failedCount &&
            (outcome == Success2xx ==>
               s'.processedCount == s.processedCount + 1 && s'.retryCount == s.retryCount &&
               s'.retryQueue == s.retryQueue &&
               Ledger(s'.store) == Ledger(s.store)[LedgerMember(e.payment) := t.requestedAt]) &&
            (outcome == NonSuccess && e.attempt < o.maxRetryAttempts ==>
               s'.processedCount == s.processedCount && s'.retryCount == s.retryCount + 1 &&
               s'.store == s.store &&
               |s'.retryQueue| == |s.retryQueue| + 1 && s'.retryQueue[..|s.retryQueue|] == s.retryQueue &&
               var next := s'.retryQueue[|s.retryQueue|];
               next == e.(attempt := e.attempt + 1, retryAt := next.retryAt) &&
               BaseDelay(next.attempt) <= next.retryAt - now < BaseDelay(next.attempt) + BaseDelay(next.attempt) / 10) &&
            ((outcome == NonSuccess && e.attempt >= o.maxRetryAttempts) || outcome == Threw ==>
               s'.processedCount == s.processedCount && s'.retryCount == s.retryCount &&
               s'.retryQueue == s.retryQueue && s'.store == s.store)
  {
    var t := s.retryInFlight[i];
    ProcessPaymentLedger(s.store, t.envelope.payment, t.requestedAt, outcome);
  }

  /** Every step keeps the invariant: the limiter's permits plus the forwards in flight
      always make up the pool, no worker holds more than one item, and no envelope is
      over budget or forwarded before it is due. */
  lemma StepKeepsInv(o: Options, s: Pipeline, a: Action)
    requires Inv(o, s) && Enabled(o, s, a)
    ensures Inv(o, Next(o, s, a))
  {
    match a
    case Submit(p) => SubmitKeepsInv(o, s, p);
    case TakeMain => TakeMainKeepsInv(o, s);
    case StartMain(i, requestedAt) => StartMainKeepsInv(o, s, i, requestedAt);
    case CompleteMain(i, outcome, now) => CompleteMainKeepsInv(o, s, i, outcome, now);
    case TakeRetry(now) => TakeRetryKeepsInv(o, s, now);
    case StartRetry(i, requestedAt) => StartRetryKeepsInv(o, s, i, requestedAt);
    case CompleteRetry(i, outcome, now, jitter) => CompleteRetryKeepsInv(o, s, i, outcome, now, jitter);
  }

  lemma SubmitConserves(s: Pipeline, p: Payment)
    ensures Pending(SubmitStep(s, p)) == Pending(s) + multiset{p}
  {
    var s' := SubmitStep(s, p);
    PendingParts(s);
    PendingParts(s');
    assert multiset(s'.mainQueue) == multiset(s.mainQueue) + multiset{p};
  }

  lemma TakeMainConserves(s: Pipeline)
    requires s.mainQueue != []
    ensures Pending(TakeMainStep(s)) == Pending(s)
  {
    var s' := TakeMainStep(s);
    PendingParts(s);
    PendingParts(s');
    MultisetFront(s.mainQueue);
    assert multiset(s'.mainQueue) + multiset(s'.mainHeld) == multiset(s.mainQueue) + multiset(s.mainHeld);
  }

  lemma StartMainConserves(s: Pipeline, i: nat, requestedAt: int)
    requires i < |s.mainHeld|
    ensures Pending(StartMainStep(s, i, requestedAt)) == Pending(s)
  {
    var s' := StartMainStep(s, i, requestedAt);
    PendingParts(s);
    PendingParts(s');
    MultisetRemove(s.mainHeld, i);
    PaymentsOfAppend(s.mainInFlight, MainTask(s.mainHeld[i], requestedAt), MainTaskPayment);
    assert multiset(s'.mainHeld) + multiset(PaymentsOf(s'.mainInFlight, MainTaskPayment)) ==
           multiset(s.mainHeld) + multiset(PaymentsOf(s.mainInFlight, MainTaskPayment));
  }

  lemma CompleteMainConserves(s: Pipeline, i: nat, outcome: Outcome, now: int)
    requires i < |s.mainInFlight|
    ensures var p := s.mainInFlight[i].payment;
            Pending(CompleteMainStep(s, i, outcome, now)) +
              (if outcome == NonSuccess then multiset{} else multiset{p}) == Pending(s)
  {
    var s' := CompleteMainStep(s, i, outcome, now);
    PendingParts(s);
    PendingParts(s');
    var p := s.mainInFlight[i].payment;
    PaymentsOfRemove(s.mainInFlight, i, MainTaskPayment);
    if outcome == NonSuccess {
      PaymentsOfAppend(s.retryQueue, FirstRetry(p, now), EnvelopePayment);
      assert multiset(PaymentsOf(s'.mainInFlight, MainTaskPayment)) +
             multiset(PaymentsOf(s'.retryQueue, EnvelopePayment)) ==
             multiset(PaymentsOf(s.mainInFlight, MainTaskPayment)) +
             multiset(PaymentsOf(s.retryQueue, EnvelopePayment));
    }
  }

  lemma TakeRetryConserves(s: Pipeline, now: int)
    requires s.retryQueue != []
    ensures Pending(TakeRetryStep(s, now)) == Pending(s)
  {
    var s' := TakeRetryStep(s, now);
    PendingParts(s);
    PendingParts(s');
    var e := s.retryQueue[0];
    PaymentsOfFront(s.retryQueue, EnvelopePayment);
    PaymentsOfAppend(s.retryHeld, HeldRetry(e, now + RetryWait(e.retryAt, now)), HeldPayment);
    assert multiset(PaymentsOf(s'.retryQueue, EnvelopePayment)) + multiset(PaymentsOf(s'.retryHeld, HeldPayment)) ==
           multiset(PaymentsOf(s.retryQueue, EnvelopePayment)) + multiset(PaymentsOf(s.retryHeld, HeldPayment));
  }

  lemma StartRetryConserves(s: Pipeline, i: nat, requestedAt: int)
    requires i < |s.retryHeld|
    ensures Pending(StartRetryStep(s, i, requestedAt)) == Pending(s)
  {
    var s' := StartRetryStep(s, i, requestedAt);
    PendingParts(s);
    PendingParts(s');
    PaymentsOfRemove(s.retryHeld, i, HeldPayment);
    PaymentsOfAppend(s.retryInFlight, RetryTask(s.retryHeld[i].envelope, requestedAt), RetryTaskPayment);
    assert multiset(PaymentsOf(s'.retryHeld, HeldPayment)) + multiset(PaymentsOf(s'.retryInFlight, RetryTaskPayment)) ==
           multiset(PaymentsOf(s.retryHeld, HeldPayment)) + multiset(PaymentsOf(s.retryInFlight, RetryTaskPayment));
  }

  lemma CompleteRetryConserves(o: Options, s: Pipeline, i: nat, outcome: Outcome, now: int, jitter: int)
    requires i < |s.retryInFlight|
    requires RetryJitterFits(o, s.retryInFlight[i].envelope, outcome, jitter)
    ensures var e := s.retryInFlight[i].envelope;
            var requeued := outcome == NonSuccess && e.attempt < o.maxRetryAttempts;
            Pending(CompleteRetryStep(o, s, i, outcome, now, jitter)) +
              (if requeued then multiset{} else multiset{e.payment}) == Pending(s)
  {
    var s' := CompleteRetryStep(o, s, i, outcome, now, jitter);
    PendingParts(s);
    PendingParts(s');
    var e := s.retryInFlight[i].envelope;
    PaymentsOfRemove(s.retryInFlight, i, RetryTaskPayment);
    if outcome == NonSuccess && e.attempt < o.maxRetryAttempts {
      var next := NextRetry(e, o.maxRetryAttempts, now, jitter).value;
      PaymentsOfAppend(s.retryQueue, next, EnvelopePayment);
      assert multiset(PaymentsOf(s'.retryInFlight, RetryTaskPayment)) +
             multiset(PaymentsOf(s'.retryQueue, EnvelopePayment)) ==
             multiset(PaymentsOf(s.retryInFlight, RetryTaskPayment)) +
             multiset(PaymentsOf(s.retryQueue, EnvelopePayment));
    }
  }

  /** Every step conserves payments: what it admits plus what was pending equals what
      is pending afterwards plus what it settles. */
  lemma StepConserves(o: Options, s: Pipeline, a: Action)
    requires Enabled(o, s, a)
    ensures Pending(Next(o, s, a)) + SettledBag(Settles(o, s, a)) == Pending(s) + Admits(a)
  {
    if a.CompleteMain? {
      CompleteMainStepConserves(o, s, a);
    } else if a.CompleteRetry? {
      CompleteRetryStepConserves(o, s, a);
    } else {
      MovingStepConserves(o, s, a);
    }
  }

  /** The steps that only admit or move a payment. */
  lemma MovingStepConserves(o: Options, s: Pipeline, a: Action)
    requires Enabled(o, s, a) && !a.CompleteMain? && !a.CompleteRetry?
    ensures Pending(Next(o, s, a)) + SettledBag(Settles(o, s, a)) == Pending(s) + Admits(a)
  {
    match a
    case Submit(p) =>
      SubmitConserves(s, p);
    case TakeMain =>
      TakeMainConserves(s);
    case StartMain(i, requestedAt) =>
      StartMainConserves(s, i, requestedAt);
    case TakeRetry(now) =>
      TakeRetryConserves(s, now);
    case StartRetry(i, requestedAt) =>
      StartRetryConserves(s, i, requestedAt);
  }

  lemma CompleteMainStepConserves(o: Options, s: Pipeline, a: Action)
    requires Enabled(o, s, a) && a.CompleteMain?
    ensures Pending(Next(o, s, a)) + SettledBag(Settles(o, s, a)) == Pending(s) + Admits(a)
  {
    CompleteMainConserves(s, a.i, a.outcome, a.now);
    assert SettledBag(Settles(o, s, a)) ==
           (if a.outcome == NonSuccess then multiset{} else multiset{s.mainInFlight[a.i].payment});
  }

  lemma CompleteRetryStepConserves(o: Options, s: Pipeline, a: Action)
    requires Enabled(o, s, a) && a.CompleteRetry?
    ensures Pending(Next(o, s, a)) + SettledBag(Settles(o, s, a)) == Pending(s) + Admits(a)
  {
    CompleteRetryConserves(o, s, a.i, a.outcome, a.now, a.jitter);
    var e := s.retryInFlight[a.i].envelope;
    assert SettledBag(Settles(o, s, a)) ==
           (if a.outcome == NonSuccess && e.attempt < o.maxRetryAttempts then multiset{} else multiset{e.payment});
  }

  /** The instant the forward a completing step handles began. */
  function StartedAt(s: Pipeline, a: Action): int
    requires a.CompleteMain? ==> a.i < |s.mainInFlight|
    requires a.CompleteRetry? ==> a.i < |s.retryInFlight|
  {
    if a.CompleteMain? then s.mainInFlight[a.i].requestedAt
    else if a.CompleteRetry? then s.retryInFlight[a.i].requestedAt
    else 0
  }

  /** The ledger changes only by a delivery: the delivered payment's member is set to
      the instant its forward began, every other member and every other key is kept,
      and the processed counter goes up by one exactly then. */
  lemma StepLedger(o: Options, s: Pipeline, a: Action)
    requires Enabled(o, s, a)
    ensures var s' := Next(o, s, a);
            var r := Settles(o, s, a);
            (if r.Some? && r.value.fate == Delivered
             then Ledger(s'.store) == Ledger(s.store)[LedgerMember(r.value.payment) := StartedAt(s, a)] &&
                  s'.store.Keys == s.store.Keys + {LedgerKey}
             else s'.store == s.store) &&
            (forall k :: k in s.store && k != LedgerKey ==> k in s'.store && s'.store[k] == s.store[k]) &&
            s'.processedCount == s.processedCount + |DeliveredBag(r)|
  {
    match a
    case CompleteMain(i, outcome, now) =>
      var t := s.mainInFlight[i];
      ProcessPaymentLedger(s.store, t.payment, t.requestedAt, outcome);
    case CompleteRetry(i, outcome, now, jitter) =>
      var t := s.retryInFlight[i];
      ProcessPaymentLedger(s.store, t.envelope.payment, t.requestedAt, outcome);
    case _ =>
  }

  /** The instant stamped on the record a main-path forward posts is the score its
      ledger entry gets when that forward succeeds. */
  lemma MainRecordTimeIsLedgerScore(s: Pipeline, i: nat, requestedAt: int, now: int)
    requires i < |s.mainHeld|
    ensures var p := s.mainHeld[i];
            var s1 := StartMainStep(s, i, requestedAt);
            var k := |s.mainInFlight|;
            k < |s1.mainInFlight| && s1.mainInFlight[k].payment == p &&
            var s2 := CompleteMainStep(s1, k, Success2xx, now);
            LedgerMember(p) in Ledger(s2.store) &&
            Ledger(s2.store)[LedgerMember(p)] == RecordFor(p, requestedAt).requestedAt
  {
    var s1 := StartMainStep(s, i, requestedAt);
    CompleteMainEffects(s1, |s.mainInFlight|, Success2xx, now);
  }

  /** The same for a retry-path forward: its record's instant is its ledger score. */
  lemma RetryRecordTimeIsLedgerScore(o: Options, s: Pipeline, i: nat, requestedAt: int, now: int, jitter: int)
    requires i < |s.retryHeld|
    ensures var p := s.retryHeld[i].envelope.payment;
            var s1 := StartRetryStep(s, i, requestedAt);
            var k := |s.retryInFlight|;
            k < |s1.retryInFlight| && s1.retryInFlight[k].envelope.payment == p &&
            var s2 := CompleteRetryStep(o, s1, k, Success2xx, now, jitter);
            LedgerMember(p) in Ledger(s2.store) &&
            Ledger(s2.store)[LedgerMember(p)] == RecordFor(p, requestedAt).requestedAt
  {
    var s1 := StartRetryStep(s, i, requestedAt);
    CompleteRetryEffects(o, s1, |s.retryInFlight|, Success2xx, now, jitter);
  }

  /** A ledger write keeps every member and every score but the written one. */
  lemma LedgerUpdate(store: Store, p: Payment, at: int)
    ensures Ledger(Record(store, p, at)) == Ledger(store)[LedgerMember(p) := at]
  {
  }

  // ---------------------------------------------------------------------------
  // Whole runs.

  /** `actions` can be performed one after another from `s`. */
  predicate Runs(o: Options, s: Pipeline, actions: seq<Action>)
    decreases |actions|
  {
    actions == [] || (Enabled(o, s, actions[0]) && Runs(o, Next(o, s, actions[0]), actions[1..]))
  }

  function Final(o: Options, s: Pipeline, actions: seq<Action>): Pipeline
    requires Runs(o, s, actions)
    decreases |actions|
  {
    if actions == [] then s else Final(o, Next(o, s, actions[0]), actions[1..])
  }

  /** The payments settled along a run, and those delivered. */
  function SettledAlong(o: Options, s: Pipeline, actions: seq<Action>): multiset<Payment>
    requires Runs(o, s, actions)
    decreases |actions|
  {
    if actions == [] then multiset{}
    else SettledBag(Settles(o, s, actions[0])) + SettledAlong(o, Next(o, s, actions[0]), actions[1..])
  }

  function DeliveredAlong(o: Options, s: Pipeline, actions: seq<Action>): multiset<Payment>
    requires Runs(o, s, actions)
    decreases |actions|
  {
    if actions == [] then multiset{}
    else DeliveredBag(Settles(o, s, actions[0])) + DeliveredAlong(o, Next(o, s, actions[0]), actions[1..])
  }

  function AdmittedAlong(actions: seq<Action>): multiset<Payment>
    decreases |actions|
  {
    if actions == [] then multiset{} else Admits(actions[0]) + AdmittedAlong(actions[1..])
  }

  lemma {:induction false} RunKeepsInv(o: Options, s: Pipeline, actions: seq<Action>)
    requires Inv(o, s) && Runs(o, s, actions)
    ensures Inv(o, Final(o, s, actions))
    decreases |actions|
  {
    if actions != [] {
      StepKeepsInv(o, s, actions[0]);
      RunKeepsInv(o, Next(o, s, actions[0]), actions[1..]);
    }
  }

  /** Conservation composes: a step followed by the rest of a run. */
  lemma ConservationComposes(before: multiset<Payment>, middle: multiset<Payment>, after: multiset<Payment>,
                             settledFirst: multiset<Payment>, settledRest: multiset<Payment>,
                             admittedFirst: multiset<Payment>, admittedRest: multiset<Payment>)
    requires middle + settledFirst == before + admittedFirst
    requires after + settledRest == middle + admittedRest
    ensures after + (settledFirst + settledRest) == before + (admittedFirst + admittedRest)
  {
    forall x
      ensures (after + (settledFirst + settledRest))[x] == (before + (admittedFirst + admittedRest))[x]
    {
      assert (middle + settledFirst)[x] == (before + admittedFirst)[x];
      assert (after + settledRest)[x] == (middle + admittedRest)[x];
    }
  }

  lemma {:induction false} RunConserves(o: Options, s: Pipeline, actions: seq<Action>)
    requires Runs(o, s, actions)
    ensures Pending(Final(o, s, actions)) + SettledAlong(o, s, actions) == Pending(s) + AdmittedAlong(actions)
    decreases |actions|
  {
    if actions != [] {
      var s1 := Next(o, s, actions[0]);
      StepConserves(o, s, actions[0]);
      RunConserves(o, s1, actions[1..]);
      ConservationComposes(Pending(s), Pending(s1), Pending(Final(o, s1, actions[1..])),
                           SettledBag(Settles(o, s, actions[0])), SettledAlong(o, s1, actions[1..]),
                           Admits(actions[0]), AdmittedAlong(actions[1..]));
    }
  }


  /** Along a run, the processed counter grows by the number of deliveries, every member
      the ledger held is kept, and every delivered payment ends up in the ledger. */
  lemma {:induction false} RunLedger(o: Options, s: Pipeline, actions: seq<Action>)
    requires Runs(o, s, actions)
    ensures var f := Final(o, s, actions);
            f.processedCount == s.processedCount + |DeliveredAlong(o, s, actions)| &&
            (forall m :: m in Ledger(s.store) ==> m in Ledger(f.store)) &&
            (forall p :: p in DeliveredAlong(o, s, actions) ==> LedgerMember(p) in Ledger(f.store))
    decreases |actions|
  {
    if actions != [] {
      var s1 := Next(o, s, actions[0]);
      StepLedger(o, s, actions[0]);
      RunLedger(o, s1, actions[1..]);
      var r := Settles(o, s, actions[0]);
      assert DeliveredAlong(o, s, actions) == DeliveredBag(r) + DeliveredAlong(o, s1, actions[1..]);
      if r.Some? && r.value.fate == Delivered {
        assert LedgerMember(r.value.payment) in Ledger(s1.store);
      }
    }
  }

  /** From a fresh start, every payment ever written to the ingestion channel is, at any
      later point, either still pending in exactly one place or settled exactly once;
      the invariant holds throughout; and the processed counter is the number of
      deliveries, each of which is in the ledger. */
  lemma EveryPaymentAccounted(o: Options, store: Store, actions: seq<Action>)
    requires ValidOptions(o) && Runs(o, Initial(o, store), actions)
    ensures var f := Final(o, Initial(o, store), actions);
            Inv(o, f) &&
            Pending(f) + SettledAlong(o, Initial(o, store), actions) == AdmittedAlong(actions) &&
            f.processedCount == |DeliveredAlong(o, Initial(o, store), actions)| &&
            (forall p :: p in DeliveredAlong(o, Initial(o, store), actions) ==> LedgerMember(p) in Ledger(f.store))
  {
    var s := Initial(o, store);
    PendingParts(s);
    RunKeepsInv(o, s, actions);
    RunConserves(o, s, actions);
    RunLedger(o, s, actions);
  }

  // ---------------------------------------------------------------------------
  // The worker object.

  class PaymentProcessorWorker {
    const maxConcurrency: int
    const maxRetryAttempts: int
    const mainWorkers: int

    var mainQueue: seq<Payment>
    var mainHeld: seq<Payment>
    var mainInFlight: seq<MainTask>
    var retryQueue: seq<RetryPayment>
    var retryHeld: seq<HeldRetry>
    var retryInFlight: seq<RetryTask>
    var permits: int
    var store: Store
    var processedCount: int
    var failedCount: int
    var retryCount: int

    function Opts(): Options {
      Options(maxConcurrency, maxRetryAttempts, mainWorkers)
    }

    function State(): Pipeline
      reads this
    {
      Pipeline(mainQueue, mainHeld, mainInFlight, retryQueue, retryHeld, retryInFlight,
               permits, store, processedCount, failedCount, retryCount)
    }

    ghost predicate Valid()
      reads this
    {
      Inv(Opts(), State())
    }

    constructor (maxConcurrency: int, maxRetryAttempts: int, mainWorkers: int, store: Store)
      requires maxConcurrency > 0 && mainWorkers > 0
      ensures Valid()
      ensures Opts() == Options(maxConcurrency, maxRetryAttempts, mainWorkers)
      ensures State() == Initial(Opts(), store)
    {
      this.maxConcurrency := maxConcurrency;
      this.maxRetryAttempts := maxRetryAttempts;
      this.mainWorkers := mainWorkers;
      this.store := store;
      mainQueue, mainHeld, mainInFlight := [], [], [];
      retryQueue, retryHeld, retryInFlight := [], [], [];
      permits := maxConcurrency;
      processedCount, failedCount, retryCount := 0, 0, 0;
    }

    method Submit(p: Payment)
      requires Valid() && |mainQueue| < ChannelCapacity
      modifies this`mainQueue
      ensures Valid()
      ensures State() == SubmitStep(old(State()), p)
    {
      SubmitKeepsInv(Opts(), State(), p);
      mainQueue := mainQueue + [p];
    }

    method TakeMain()
      requires Valid() && mainQueue != [] && |mainHeld| < mainWorkers
      modifies this`mainQueue, this`mainHeld
      ensures Valid()
      ensures State() == TakeMainStep(old(State()))
    {
      TakeMainKeepsInv(Opts(), State());
      var p := mainQueue[0];
      mainQueue := mainQueue[1..];
      mainHeld := mainHeld + [p];
    }

    /** Returns the body posted downstream. */
    method StartMain(i: nat, requestedAt: int) returns (record: PaymentRecord)
      requires Valid() && i < |mainHeld| && permits > 0
      modifies this`permits, this`mainHeld, this`mainInFlight
      ensures Valid()
      ensures State() == StartMainStep(old(State()), i, requestedAt)
      ensures record == RecordFor(old(mainHeld[i]), requestedAt)
    {
      StartMainKeepsInv(Opts(), State(), i, requestedAt);
      var p := mainHeld[i];
      permits := permits - 1;
      mainHeld := Remove(mainHeld, i);
      mainInFlight := mainInFlight + [MainTask(p, requestedAt)];
      record := RecordFor(p, requestedAt);
    }

    /** The ledger write of a successful forward: member "{CorrelationId}:{Amount}" under
        LedgerKey, scored at `timestamp`. */
    method WriteToRedis(p: Payment, timestamp: int)
      modifies this`store
      ensures store == Record(old(store), p, timestamp)
    {
      store := Record(store, p, timestamp);
    }

    /** One POST of `p`, begun when the clock read `now`; None when it threw. */
    method ProcessPaymentAsync(p: Payment, now: int, outcome: Outcome) returns (success: Option<bool>)
      modifies this`store
      ensures Forwarded(success, store) == ProcessPayment(old(store), p, now, outcome)
    {
      match outcome {
        case Success2xx =>
          WriteToRedis(p, now);
          success := Some(true);
        case NonSuccess =>
          success := Some(false);
        case Threw =>
          success := None;
      }
    }

    method CompleteMain(i: nat, outcome: Outcome, now: int)
      requires Valid() && i < |mainInFlight|
      modifies this`permits, this`mainInFlight, this`store, this`retryQueue
      modifies this`processedCount, this`failedCount
      ensures Valid()
      ensures State() == CompleteMainStep(old(State()), i, outcome, now)
    {
      ghost var s0 := State();
      var t := mainInFlight[i];
      mainInFlight := Remove(mainInFlight, i);
      var success := ProcessPaymentAsync(t.payment, t.requestedAt, outcome);
      match success {
        case Some(true) =>
          processedCount := processedCount + 1;
        case Some(false) =>
          failedCount := failedCount + 1;
          retryQueue := retryQueue + [FirstRetry(t.payment, now)];
        case None =>
      }
      permits := permits + 1;
      assert State() == CompleteMainStep(s0, i, outcome, now);
      CompleteMainKeepsInv(Opts(), s0, i, outcome, now);
    }

    method TakeRetry(now: int)
      requires Valid() && retryQueue != [] && |retryHeld| < RetryWorkers
      modifies this`retryQueue, this`retryHeld
      ensures Valid()
      ensures State() == TakeRetryStep(old(State()), now)
    {
      TakeRetryKeepsInv(Opts(), State(), now);
      var e := retryQueue[0];
      retryQueue := retryQueue[1..];
      var delay := RetryWait(e.retryAt, now);
      retryHeld := retryHeld + [HeldRetry(e, now + delay)];
    }

    /** Returns the body posted downstream; the envelope is never forwarded before it
        was due. */
    method StartRetry(i: nat, requestedAt: int) returns (record: PaymentRecord)
      requires Valid() && i < |retryHeld| && permits > 0
      requires requestedAt >= retryHeld[i].resumeAt
      modifies this`permits, this`retryHeld, this`retryInFlight
      ensures Valid()
      ensures State() == StartRetryStep(old(State()), i, requestedAt)
      ensures record == RecordFor(old(retryHeld[i].envelope.payment), requestedAt)
      ensures requestedAt >= old(retryHeld[i].envelope.retryAt)
    {
      StartRetryKeepsInv(Opts(), State(), i, requestedAt);
      var h := retryHeld[i];
      permits := permits - 1;
      retryHeld := Remove(retryHeld, i);
      retryInFlight := retryInFlight + [RetryTask(h.envelope, requestedAt)];
      record := RecordFor(h.envelope.payment, requestedAt);
    }

    method CompleteRetry(i: nat, outcome: Outcome, now: int, jitter: int)
      requires Valid() && i < |retryInFlight|
      requires RetryJitterFits(Opts(), retryInFlight[i].envelope, outcome, jitter)
      modifies this`permits, this`retryInFlight, this`store, this`retryQueue
      modifies this`processedCount, this`retryCount
      ensures Valid()
      ensures State() == CompleteRetryStep(Opts(), old(State()), i, outcome, now, jitter)
    {
      ghost var s0 := State();
      var t := retryInFlight[i];
      retryInFlight := Remove(retryInFlight, i);
      var success := ProcessPaymentAsync(t.envelope.payment, t.requestedAt, outcome);
      match success {
        case Some(true) =>
          processedCount := processedCount + 1;
        case Some(false) =>
          if t.envelope.attempt < maxRetryAttempts {
            retryCount := retryCount + 1;
            var next := NextRetry(t.envelope, maxRetryAttempts, now, jitter).value;
            retryQueue := retryQueue + [next];
          }
        case None =>
      }
      permits := permits + 1;
      assert State() == CompleteRetryStep(Opts(), s0, i, outcome, now, jitter);
      CompleteRetryKeepsInv(Opts(), s0, i, outcome, now, jitter);
    }
  }
}
