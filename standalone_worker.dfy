/** The older standalone worker (PaymentProcessor.Worker): main workers pop payments from
    the right end of the Redis list "payments:queue", retry workers take failed payments
    from an in-memory retry channel, and every forward holds one permit of a pool of
    eight while it runs. A failed payment is re-queued unchanged, with no attempt limit
    and no backoff, and every exception of a forward counts as a failure.

    Each loop iteration is a step; a loop is the steps run over a sequence of clock
    readings and forward outcomes supplied by the environment. */
module StandaloneWorker {
  import opened Payments

  /** Size of the permit pool around forwards. */
  const PermitPool: int := 8

  /** What deserializing a list entry yields: a payment, the JSON literal null, or text
      that is not a payment (the deserializer throws). */
  datatype QueueItem = Payload(payment: Payment) | NullPayload | Malformed

  /** The state one step can change: the Redis list (its right end is the last element),
      the retry channel (oldest first) and the Redis sorted sets. */
  datatype Worker = Worker(mainList: seq<QueueItem>, retryQueue: seq<Payment>, store: Store)

  /** What a forward yields: whether it succeeded, and Redis afterwards. */
  datatype ForwardResult = ForwardResult(success: bool, store: Store)

  /** A forward of `p` begun when the clock read `now`: any exception is caught and
      reported as a failure, so only a success status succeeds, and only a success
      writes the ledger. */
  function Forward(store: Store, p: Payment, now: int, outcome: Outcome): (r: ForwardResult)
    ensures r.success <==> outcome == Success2xx
    ensures !r.success ==> r.store == store
  {
    if outcome == Success2xx then ForwardResult(true, Record(store, p, now))
    else ForwardResult(false, store)
  }

  /** A successful forward sets exactly the payment's ledger member, scored at the instant
      the forward began, and leaves every other member and every other key alone. */
  lemma ForwardLedger(store: Store, p: Payment, now: int, outcome: Outcome)
    ensures var r := Forward(store, p, now, outcome);
            (r.success ==> Ledger(r.store) == Ledger(store)[LedgerMember(p) := now]) &&
            (r.success ==> r.store.Keys == store.Keys + {LedgerKey}) &&
            (!r.success ==> r.store == store) &&
            (forall k :: k in store && k != LedgerKey ==> k in r.store && r.store[k] == store[k])
  {
    if outcome == Success2xx {
      RecordAddsExactlyOne(store, p, now);
      RecordKeys(store, p, now);
      assert Ledger(Record(store, p, now)) == Ledger(store)[LedgerMember(p) := now];
    }
  }

  /** How one loop iteration ended. */
  datatype StepResult =
    | Idle                // nothing to read; the worker sleeps
    | Dropped             // the entry deserialized to null
    | Crashed             // the entry could not be deserialized; the exception ends the worker
    | Sent(success: bool) // a payment was forwarded

  /** One iteration of a main worker. */
  function MainStep(s: Worker, now: int, outcome: Outcome): (StepResult, Worker) {
    if s.mainList == [] then (Idle, s)
    else
      var item := s.mainList[|s.mainList| - 1];
      var popped := s.(mainList := s.mainList[..|s.mainList| - 1]);
      match item
      case NullPayload => (Dropped, popped)
      case Malformed => (Crashed, popped)
      case Payload(p) =>
        var f := Forward(s.store, p, now, outcome);
        if f.success then (Sent(true), popped.(store := f.store))
        else (Sent(false), popped.(retryQueue := s.retryQueue + [p]))
  }

  /** One iteration of a retry worker. */
  function RetryStep(s: Worker, now: int, outcome: Outcome): (StepResult, Worker) {
    if s.retryQueue == [] then (Idle, s)
    else
      var p := s.retryQueue[0];
      var f := Forward(s.store, p, now, outcome);
      if f.success then (Sent(true), s.(retryQueue := s.retryQueue[1..], store := f.store))
      else (Sent(false), s.(retryQueue := s.retryQueue[1..] + [p]))
  }

  // ---------------------------------------------------------------------------
  // Single steps.

  /** With the list empty a main step changes nothing; otherwise it removes exactly the
      rightmost entry, and the retry queue and store change only as its forward dictates. */
  lemma MainStepPopsRight(s: Worker, now: int, outcome: Outcome)
    ensures var (r, s') := MainStep(s, now, outcome);
            (s.mainList == [] ==> r == Idle && s' == s) &&
            (s.mainList != [] ==>
               s'.mainList == s.mainList[..|s.mainList| - 1] &&
               s.mainList == s'.mainList + [s.mainList[|s.mainList| - 1]])
  {
  }

  /** An entry that is null or not a payment is dropped: no forward, no retry, no ledger
      write. */
  lemma MainStepDropsNonPayments(s: Worker, now: int, outcome: Outcome)
    requires s.mainList != [] && !s.mainList[|s.mainList| - 1].Payload?
    ensures var (r, s') := MainStep(s, now, outcome);
            (r == Dropped || r == Crashed) &&
            (r == Crashed <==> s.mainList[|s.mainList| - 1] == Malformed) &&
            s'.retryQueue == s.retryQueue && s'.store == s.store
  {
  }

  /** A payment popped from the list is forwarded: on failure the identical payment is
      appended to the retry queue and nothing is written; on success the ledger gains
      its member, scored at `now`, and the retry queue is untouched. */
  lemma MainStepForwards(s: Worker, now: int, outcome: Outcome)
    requires s.mainList != [] && s.mainList[|s.mainList| - 1].Payload?
    ensures var p := s.mainList[|s.mainList| - 1].payment;
            var (r, s') := MainStep(s, now, outcome);
            r == Sent(outcome == Success2xx) &&
            (outcome == Success2xx ==>
               s'.retryQueue == s.retryQueue &&
               Ledger(s'.store) == Ledger(s.store)[LedgerMember(p) := now]) &&
            (outcome != Success2xx ==> s'.retryQueue == s.retryQueue + [p] && s'.store == s.store)
  {
    ForwardLedger(s.store, s.mainList[|s.mainList| - 1].payment, now, outcome);
  }

  /** A retry step on an empty queue changes nothing. On a non-empty queue it takes the
      oldest payment; a failure puts that same payment back at the end, so the queue
      keeps its length and its contents; a success removes it and records it. */
  lemma RetryStepRequeues(s: Worker, now: int, outcome: Outcome)
    ensures var (r, s') := RetryStep(s, now, outcome);
            (s.retryQueue == [] ==> r == Idle && s' == s) &&
            (s.retryQueue != [] && outcome != Success2xx ==>
               r == Sent(false) &&
               s'.retryQueue == s.retryQueue[1..] + [s.retryQueue[0]] &&
               |s'.retryQueue| == |s.retryQueue| &&
               multiset(s'.retryQueue) == multiset(s.retryQueue) &&
               s'.store == s.store && s'.mainList == s.mainList) &&
            (s.retryQueue != [] && outcome == Success2xx ==>
               r == Sent(true) &&
               s'.retryQueue == s.retryQueue[1..] &&
               Ledger(s'.store) == Ledger(s.store)[LedgerMember(s.retryQueue[0]) := now])
  {
    if s.retryQueue != [] {
      ForwardLedger(s.store, s.retryQueue[0], now, outcome);
      assert s.retryQueue == [s.retryQueue[0]] + s.retryQueue[1..];
    }
  }

  // ---------------------------------------------------------------------------
  // Conservation: no payment is lost or duplicated except by a deliberate drop.

  /** The payments in a list of entries. */
  function Payloads(items: seq<QueueItem>): multiset<Payment>
    decreases |items|
  {
    if items == [] then multiset{}
    else Payloads(items[..|items| - 1]) +
         (if items[|items| - 1].Payload? then multiset{items[|items| - 1].payment} else multiset{})
  }

  /** Every payment the worker still has to deliver. */
  function Waiting(s: Worker): multiset<Payment> {
    Payloads(s.mainList) + multiset(s.retryQueue)
  }

  /** The payment a step delivers, if any. */
  function DeliveredBy(s: Worker, r: StepResult, fromMain: bool): multiset<Payment> {
    if r != Sent(true) then multiset{}
    else if fromMain then
      (if s.mainList != [] && s.mainList[|s.mainList| - 1].Payload?
       then multiset{s.mainList[|s.mainList| - 1].payment} else multiset{})
    else (if s.retryQueue != [] then multiset{s.retryQueue[0]} else multiset{})
  }

  /** A main step loses no payment: what was waiting is what waits afterwards plus what
      it delivered (a dropped or malformed entry carried no payment). */
  lemma MainStepConserves(s: Worker, now: int, outcome: Outcome)
    ensures var (r, s') := MainStep(s, now, outcome);
            Waiting(s') + DeliveredBy(s, r, true) == Waiting(s)
  {
    var (r, s') := MainStep(s, now, outcome);
    if s.mainList != [] {
      var item := s.mainList[|s.mainList| - 1];
      assert Payloads(s.mainList) ==
             Payloads(s'.mainList) + (if item.Payload? then multiset{item.payment} else multiset{});
    }
  }

  /** A retry step loses no payment: a failure keeps it waiting, a success delivers it. */
  lemma RetryStepConserves(s: Worker, now: int, outcome: Outcome)
    ensures var (r, s') := RetryStep(s, now, outcome);
            Waiting(s') + DeliveredBy(s, r, false) == Waiting(s)
  {
    if s.retryQueue != [] {
      assert s.retryQueue == [s.retryQueue[0]] + s.retryQueue[1..];
    }
  }

  // ---------------------------------------------------------------------------
  // The loops, run over what the environment supplies at each iteration.

  /** The clock reading and the forward's outcome of one iteration. */
  datatype Tick = Tick(now: int, outcome: Outcome)

  /** A main worker over `ticks`: whether it crashed, and the state it leaves. Once it has
      crashed it runs no more iterations. */
  function MainRun(s: Worker, ticks: seq<Tick>): (bool, Worker)
    decreases |ticks|
  {
    if ticks == [] then (false, s)
    else
      var (crashed, s1) := MainRun(s, ticks[..|ticks| - 1]);
      if crashed then (true, s1)
      else
        var t := ticks[|ticks| - 1];
        var (r, s2) := MainStep(s1, t.now, t.outcome);
        (r == Crashed, s2)
  }

  /** A retry worker over `ticks`. */
  function RetryRun(s: Worker, ticks: seq<Tick>): Worker
    decreases |ticks|
  {
    if ticks == [] then s
    else
      var t := ticks[|ticks| - 1];
      RetryStep(RetryRun(s, ticks[..|ticks| - 1]), t.now, t.outcome).1
  }

  /** After a crash, further ticks change nothing. */
  lemma {:induction false} MainRunStopsAtCrash(s: Worker, ticks: seq<Tick>, k: nat)
    requires k <= |ticks| && MainRun(s, ticks[..k]).0
    ensures MainRun(s, ticks) == MainRun(s, ticks[..k])
    decreases |ticks| - k
  {
    if k < |ticks| {
      assert ticks[..k + 1][..k] == ticks[..k];
      MainRunStopsAtCrash(s, ticks, k + 1);
    } else {
      assert ticks[..k] == ticks;
    }
  }

  /** Failing retries rotate the queue: after k failures (k at most its length) the k
      oldest payments have moved, in order, to the back, and nothing is written. */
  lemma {:induction false} RetryFailuresRotate(s: Worker, ticks: seq<Tick>)
    requires |ticks| <= |s.retryQueue|
    requires forall j :: 0 <= j < |ticks| ==> ticks[j].outcome != Success2xx
    ensures RetryRun(s, ticks).retryQueue == s.retryQueue[|ticks|..] + s.retryQueue[..|ticks|]
    ensures RetryRun(s, ticks).store == s.store && RetryRun(s, ticks).mainList == s.mainList
    decreases |ticks|
  {
    if ticks != [] {
      var k := |ticks| - 1;
      RetryFailuresRotate(s, ticks[..k]);
      var q := s.retryQueue;
      var before := RetryRun(s, ticks[..k]);
      assert before.retryQueue == q[k..] + q[..k];
      assert before.retryQueue[0] == q[k];
      assert before.retryQueue[1..] == q[k + 1..] + q[..k];
      assert q[..k] + [q[k]] == q[..k + 1];
    }
  }

  /** With every forward failing, as many retry iterations as there are queued payments
      give back the queue exactly as it was: with no attempt limit, a payment that keeps
      failing is retried forever. */
  lemma FailingRetriesCycle(s: Worker, ticks: seq<Tick>)
    requires |ticks| == |s.retryQueue|
    requires forall j :: 0 <= j < |ticks| ==> ticks[j].outcome != Success2xx
    ensures RetryRun(s, ticks) == s
  {
    RetryFailuresRotate(s, ticks);
    assert s.retryQueue[|ticks|..] + s.retryQueue[..|ticks|] == s.retryQueue;
  }

  // ---------------------------------------------------------------------------
  // The worker object.

  class PaymentProcessorWorker {
    var mainList: seq<QueueItem>
    var retryQueue: seq<Payment>
    var store: Store
    /** Free permits of the forward limiter. */
    var permits: int

    function State(): Worker
      reads this
    {
      Worker(mainList, retryQueue, store)
    }

    /** Between iterations every permit is back in the pool. */
    ghost predicate Valid()
      reads this
    {
      permits == PermitPool
    }

    constructor (mainList: seq<QueueItem>, store: Store)
      ensures Valid()
      ensures State() == Worker(mainList, [], store)
    {
      this.mainList := mainList;
      this.retryQueue := [];
      this.store := store;
      this.permits := PermitPool;
    }

    /** The fire-and-forget ledger write: member "{CorrelationId}:{Amount}" under
        LedgerKey, scored at `timestamp`. */
    method WriteToRedis(p: Payment, timestamp: int)
      modifies this`store
      ensures store == Record(old(store), p, timestamp)
    {
      store := Record(store, p, timestamp);
    }

    /** One forward of `p`: a permit is taken before it and given back on every path, so
        the pool is as it was; any exception is a failure. `record` is the body posted,
        stamped with the same instant the ledger entry is scored at. */
    method ProcessPaymentAsync(p: Payment, now: int, outcome: Outcome)
      returns (success: bool, record: PaymentRecord)
      requires permits > 0
      modifies this`permits, this`store
      ensures permits == old(permits)
      ensures ForwardResult(success, store) == Forward(old(store), p, now, outcome)
      ensures record == RecordFor(p, now)
    {
      permits := permits - 1;
      record := RecordFor(p, now);
      match outcome {
        case Success2xx =>
          WriteToRedis(p, now);
          success := true;
        case NonSuccess =>
          success := false;
        case Threw =>
          success := false;
      }
      permits := permits + 1;
    }

    /** One iteration of a main worker. */
    method MainIteration(now: int, outcome: Outcome) returns (r: StepResult)
      requires Valid()
      modifies this`mainList, this`retryQueue, this`store, this`permits
      ensures Valid()
      ensures (r, State()) == MainStep(old(State()), now, outcome)
    {
      if mainList == [] {
        return Idle;
      }
      var item := mainList[|mainList| - 1];
      mainList := mainList[..|mainList| - 1];
      match item {
        case NullPayload =>
          r := Dropped;
        case Malformed =>
          r := Crashed;
        case Payload(p) =>
          var success, _ := ProcessPaymentAsync(p, now, outcome);
          if !success {
            retryQueue := retryQueue + [p];
          }
          r := Sent(success);
      }
    }

    /** One iteration of a retry worker. */
    method RetryIteration(now: int, outcome: Outcome) returns (r: StepResult)
      requires Valid()
      modifies this`retryQueue, this`store, this`permits
      ensures Valid()
      ensures (r, State()) == RetryStep(old(State()), now, outcome)
    {
      if retryQueue == [] {
        return Idle;
      }
      var p := retryQueue[0];
      retryQueue := retryQueue[1..];
      var success, _ := ProcessPaymentAsync(p, now, outcome);
      if !success {
        retryQueue := retryQueue + [p];
      }
      r := Sent(success);
    }

    /** A main worker's loop over `ticks`; it ends early when an entry cannot be
        deserialized. */
    method ProcessMainQueue(ticks: seq<Tick>) returns (crashed: bool)
      requires Valid()
      modifies this`mainList, this`retryQueue, this`store, this`permits
      ensures Valid()
      ensures (crashed, State()) == MainRun(old(State()), ticks)
    {
      ghost var s0 := State();
      crashed := false;
      var k := 0;
      while k < |ticks| && !crashed
        invariant 0 <= k <= |ticks|
        invariant Valid()
        invariant (crashed, State()) == MainRun(s0, ticks[..k])
      {
        assert ticks[..k + 1][..k] == ticks[..k];
        var r := MainIteration(ticks[k].now, ticks[k].outcome);
        crashed := r == Crashed;
        k := k + 1;
      }
      if crashed {
        MainRunStopsAtCrash(s0, ticks, k);
      } else {
        assert ticks[..k] == ticks;
      }
    }

    /** A retry worker's loop over `ticks`. */
    method ProcessRetryQueue(ticks: seq<Tick>)
      requires Valid()
      modifies this`retryQueue, this`store, this`permits
      ensures Valid()
      ensures State() == RetryRun(old(State()), ticks)
    {
      ghost var s0 := State();
      var k := 0;
      while k < |ticks|
        invariant 0 <= k <= |ticks|
        invariant Valid()
        invariant State() == RetryRun(s0, ticks[..k])
      {
        assert ticks[..k + 1][..k] == ticks[..k];
        var _ := RetryIteration(ticks[k].now, ticks[k].outcome);
        k := k + 1;
      }
      assert ticks[..k] == ticks;
    }
  }
}
