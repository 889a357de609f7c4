/**
 * The dispatcher's delivery decision (internal/worker/dispatcher.go):
 * how one attempt is classified, how a failure becomes either a dead letter
 * or exactly one delayed re-submission with exponential backoff, and a
 * sequential worker step over an abstract queue plus the pending timers.
 *
 * The HTTP client, the goroutines and the clock are not modelled: the
 * attempt's outcome and the current instant are inputs.
 */
module Worker {
  import opened Options
  import opened Model

  const NanosPerSecond: int := 1_000_000_000

  /** 2^63: the first value an int64 cannot hold. */
  const Int64Limit: int := 0x8000_0000_0000_0000

  /** 2^64: the number of distinct int64 values. */
  const Int64Modulus: int := 0x1_0000_0000_0000_0000

  /** What one delivery attempt came to, as `process` sees it. */
  datatype Attempt =
    | RequestInvalid          // http.NewRequest rejected the method or URL
    | TransportFailed         // Client.Do returned an error, the timeout included
    | Responded(status: int)  // Client.Do returned a response with this status

  /** Only 2xx counts as a delivered webhook. */
  predicate IsSuccessStatus(status: int) {
    200 <= status < 300
  }

  /** An attempt that is handed to the retry policy. */
  predicate IsFailure(a: Attempt) {
    a.TransportFailed? || (a.Responded? && !IsSuccessStatus(a.status))
  }

  /** What the worker does with a task once an attempt is over. */
  datatype Disposition =
    | Dropped                 // the request could not be built: fatal, never retried
    | Delivered               // 2xx: the task is finished
    | DeadLettered            // failed at the retry ceiling: logged, never re-submitted
    | Rescheduled(delay: int) // one re-submission after `delay` nanoseconds
    | Crashed                 // the backoff shift by a negative count panics

  /** The task as the worker left it, and what was decided about it. */
  datatype Handled = Handled(task: Task, disposition: Disposition)

  function Pow2(k: nat): (r: nat)
    ensures r >= 1
  {
    if k == 0 then 1 else 2 * Pow2(k - 1)
  }

  /** The int64 that `x` wraps to in two's complement. */
  function ToInt64(x: int): (r: int)
    ensures -Int64Limit <= r < Int64Limit
    ensures -Int64Limit <= x < Int64Limit ==> r == x
  {
    var m := x % Int64Modulus;
    if m < Int64Limit then m else m - Int64Modulus
  }

  /**
   * `time.Duration(1 << k) * time.Second` in nanoseconds: both the shift
   * and the multiplication are int64 operations and wrap.
   */
  function BackoffNanos(k: nat): (r: int)
    ensures -Int64Limit <= r < Int64Limit
  {
    ToInt64(ToInt64(Pow2(k)) * NanosPerSecond)
  }

  lemma {:induction false} Pow2Monotone(j: nat, k: nat)
    requires j <= k
    ensures Pow2(j) <= Pow2(k)
    decreases k
  {
    if j < k {
      Pow2Monotone(j, k - 1);
    }
  }

  lemma {:induction false} Pow2Sum(j: nat, k: nat)
    ensures Pow2(j + k) == Pow2(j) * Pow2(k)
    decreases k
  {
    if k > 0 {
      Pow2Sum(j, k - 1);
      assert Pow2(j + k) == 2 * Pow2(j + k - 1);
    }
  }

  lemma Pow2Of33()
    ensures Pow2(33) == 8_589_934_592
  {
    assert Pow2(4) == 16;
    Pow2Sum(4, 4);
    Pow2Sum(8, 8);
    Pow2Sum(16, 16);
    Pow2Sum(32, 1);
  }

  /** No wrap-around happens up to a count of 33: the delay is 2^k seconds. */
  lemma BackoffIsPowerOfTwoSeconds(k: nat)
    requires k <= 33
    ensures BackoffNanos(k) == Pow2(k) * NanosPerSecond
  {
    Pow2Monotone(k, 33);
    Pow2Of33();
  }

  /**
   * At a count of 34 the int64 multiplication overflows into a negative
   * delay. Past that the sign varies with the count (37, for one, gives a
   * positive value again).
   */
  lemma BackoffWrapsAt34()
    ensures BackoffNanos(34) < 0
  {
    Pow2Of33();
    assert Pow2(34) == 17_179_869_184;
  }

  /** The wrapped delay does not stay negative after 34: at 37 it is positive again. */
  lemma BackoffPositiveAt37()
    ensures BackoffNanos(37) > 0
  {
    Pow2Of33();
    Pow2Sum(33, 4);
    assert Pow2(4) == 16;
  }

  /** From a count of 64 on, the shift itself leaves no bits and the delay is 0. */
  lemma BackoffVanishesFrom64(k: nat)
    requires k >= 64
    ensures BackoffNanos(k) == 0
  {
    Pow2Of33();
    Pow2Sum(32, 32);
    Pow2Sum(64, k - 64);
    var m := Pow2(k - 64);
    assert Pow2(k) == Int64Modulus * m;
    assert (Int64Modulus * m) % Int64Modulus == 0;
  }

  /**
   * `handleFailure`: at or past the ceiling the task is dead-lettered
   * untouched; otherwise the counter is incremented first and the delay is
   * computed from the incremented count, so a fresh task waits 2s, 4s, 8s.
   */
  function HandleFailure(t: Task, now: Instant): (h: Handled)
    ensures h.disposition.DeadLettered? <==> t.retryCount >= t.maxRetries
    ensures h.disposition.DeadLettered? ==> h.task == t
    ensures h.disposition.DeadLettered? || h.disposition.Rescheduled? || h.disposition.Crashed?
    ensures SameDelivery(t, h.task)
    ensures !h.disposition.DeadLettered? ==> h.task.retryCount == t.retryCount + 1
    ensures h.disposition.Crashed? <==> t.retryCount < t.maxRetries && t.retryCount + 1 < 0
    ensures h.disposition.Crashed? ==> h.task.nextRetryAt == t.nextRetryAt
    ensures h.disposition.Rescheduled? ==>
      && 0 <= h.task.retryCount
      && h.disposition.delay == BackoffNanos(h.task.retryCount)
      && h.task.nextRetryAt == now + h.disposition.delay
    ensures WithinBudget(t) ==> WithinBudget(h.task) && !h.disposition.Crashed?
  {
    if t.retryCount >= t.maxRetries then
      Handled(t, DeadLettered)
    else
      var count := t.retryCount + 1;
      if count < 0 then
        Handled(t.(retryCount := count), Crashed)
      else
        var backoff := BackoffNanos(count);
        Handled(t.(retryCount := count, nextRetryAt := now + backoff), Rescheduled(backoff))
  }

  /**
   * `process`: a request that cannot be built is dropped, a 2xx response
   * finishes the task, and every other outcome goes to the retry policy.
   */
  function Process(t: Task, a: Attempt, now: Instant): (h: Handled)
    ensures h.disposition.Dropped? <==> a.RequestInvalid?
    ensures h.disposition.Delivered? <==> a.Responded? && IsSuccessStatus(a.status)
    ensures IsFailure(a) ==> h == HandleFailure(t, now)
    ensures !IsFailure(a) ==> h.task == t
  {
    match a
    case RequestInvalid => Handled(t, Dropped)
    case TransportFailed => HandleFailure(t, now)
    case Responded(status) =>
      if IsSuccessStatus(status) then Handled(t, Delivered) else HandleFailure(t, now)
  }

  /** One attempt on a task, made at instant `at`. */
  datatype Try = Try(attempt: Attempt, at: Instant)

  /**
   * The life of one task over consecutive attempts: the delays scheduled,
   * the task as last seen, and the final disposition once it is no longer
   * rescheduled (None while it is still being retried).
   */
  datatype History = History(delays: seq<int>, last: Task, settled: Option<Disposition>)

  /** Each re-submission is assumed to be picked up again for the next try. */
  function Run(t: Task, tries: seq<Try>): History
    decreases |tries|
  {
    if |tries| == 0 then
      History([], t, None)
    else
      var h := Process(t, tries[0].attempt, tries[0].at);
      if h.disposition.Rescheduled? then
        var rest := Run(h.task, tries[1..]);
        History([h.disposition.delay] + rest.delays, rest.last, rest.settled)
      else
        History([], h.task, Some(h.disposition))
  }

  /**
   * Over any sequence of attempts a task within its budget is re-submitted
   * at most `maxRetries - retryCount` times, every re-submission adds
   * exactly one to the counter, the counter never passes the ceiling, the
   * delivery itself never changes, and the backoff never panics.
   */
  lemma {:induction false} RetriesBounded(t: Task, tries: seq<Try>)
    requires WithinBudget(t)
    ensures |Run(t, tries).delays| <= t.maxRetries - t.retryCount
    ensures Run(t, tries).last.retryCount == t.retryCount + |Run(t, tries).delays|
    ensures WithinBudget(Run(t, tries).last)
    ensures SameDelivery(t, Run(t, tries).last)
    ensures Run(t, tries).settled != Some(Crashed)
    decreases |tries|
  {
    if |tries| > 0 {
      var h := Process(t, tries[0].attempt, tries[0].at);
      if h.disposition.Rescheduled? {
        RetriesBounded(h.task, tries[1..]);
      }
    }
  }

  /** While no wrap-around can happen, the i-th re-submission waits 2^(retryCount+i+1) seconds. */
  lemma {:induction false} BackoffSchedule(t: Task, tries: seq<Try>)
    requires WithinBudget(t) && t.maxRetries <= 33
    ensures forall i :: 0 <= i < |Run(t, tries).delays| ==>
      Run(t, tries).delays[i] == Pow2(t.retryCount + i + 1) * NanosPerSecond
    decreases |tries|
  {
    if |tries| > 0 {
      var h := Process(t, tries[0].attempt, tries[0].at);
      if h.disposition.Rescheduled? {
        BackoffIsPowerOfTwoSeconds(h.task.retryCount);
        BackoffSchedule(h.task, tries[1..]);
        var rest := Run(h.task, tries[1..]);
        assert Run(t, tries).delays == [h.disposition.delay] + rest.delays;
        forall i | 0 < i < |Run(t, tries).delays|
          ensures Run(t, tries).delays[i] == Pow2(t.retryCount + i + 1) * NanosPerSecond
        {
          assert Run(t, tries).delays[i] == rest.delays[i - 1];
        }
      }
    }
  }

  /**
   * A task that fails every attempt is re-submitted once per attempt until
   * its budget is spent, and the attempt after that dead-letters it.
   */
  lemma {:induction false} FailuresExhaustBudget(t: Task, tries: seq<Try>)
    requires WithinBudget(t)
    requires forall i :: 0 <= i < |tries| ==> IsFailure(tries[i].attempt)
    ensures |tries| <= t.maxRetries - t.retryCount ==>
      |Run(t, tries).delays| == |tries| && Run(t, tries).settled == None
    ensures |tries| > t.maxRetries - t.retryCount ==>
      |Run(t, tries).delays| == t.maxRetries - t.retryCount
      && Run(t, tries).settled == Some(DeadLettered)
    decreases |tries|
  {
    if |tries| > 0 {
      var h := Process(t, tries[0].attempt, tries[0].at);
      if h.disposition.Rescheduled? {
        FailuresExhaustBudget(h.task, tries[1..]);
      }
    }
  }

  /**
   * A fresh task (count 0, ceiling 3) whose endpoint keeps failing is
   * retried after 2s, 4s and 8s, and its fourth failure dead-letters it.
   */
  lemma FreshTaskFailingFourTimes(t: Task, tries: seq<Try>)
    requires t.retryCount == 0 && t.maxRetries == 3
    requires |tries| == 4
    requires forall i :: 0 <= i < |tries| ==> IsFailure(tries[i].attempt)
    ensures Run(t, tries).delays == [2 * NanosPerSecond, 4 * NanosPerSecond, 8 * NanosPerSecond]
    ensures Run(t, tries).settled == Some(DeadLettered)
    ensures Run(t, tries).last.retryCount == 3
  {
    FailuresExhaustBudget(t, tries);
    BackoffSchedule(t, tries);
    RetriesBounded(t, tries);
    assert Pow2(1) == 2 && Pow2(2) == 4 && Pow2(3) == 8;
  }

  /** A pending delayed re-submission: the goroutine sleeping before `Enqueue`. */
  datatype Timer = Timer(task: Task, delay: int)

  /** The dispatcher's world: the queue in hand-off order, and the pending timers. */
  datatype State = State(queue: seq<Task>, timers: seq<Timer>)

  /** Every task the dispatcher still owns is within its retry budget. */
  predicate Healthy(s: State) {
    && (forall i :: 0 <= i < |s.queue| ==> WithinBudget(s.queue[i]))
    && (forall j :: 0 <= j < |s.timers| ==> WithinBudget(s.timers[j].task))
  }

  /**
   * The result of one worker iteration: blocked on an empty queue, a task
   * handled, or a panic. A panic in a worker ends the whole process, so it
   * has no successor state: the queue in memory and every pending timer
   * are gone with it.
   */
  datatype Step = Idle | Panicked(handled: Handled) | Stepped(state: State, handled: Handled)

  /**
   * One iteration of the worker loop: take the oldest task, process it, and
   * start a timer exactly when the task was rescheduled. The queue loses its
   * head and nothing else about the state changes. A panicking backoff
   * ends the process instead.
   */
  function WorkerStep(s: State, a: Attempt, now: Instant): (r: Step)
    ensures r.Idle? <==> s.queue == []
    ensures r.Panicked? <==> s.queue != [] && Process(s.queue[0], a, now).disposition.Crashed?
    ensures r.Panicked? ==> r.handled == Process(s.queue[0], a, now)
    ensures r.Stepped? ==> !r.handled.disposition.Crashed?
    ensures r.Stepped? ==>
      && r.state.queue == s.queue[1..]
      && r.handled == Process(s.queue[0], a, now)
    ensures r.Stepped? && !r.handled.disposition.Rescheduled? ==> r.state.timers == s.timers
    ensures r.Stepped? && r.handled.disposition.Rescheduled? ==>
      r.state.timers == s.timers + [Timer(r.handled.task, r.handled.disposition.delay)]
  {
    if s.queue == [] then
      Idle
    else
      var h := Process(s.queue[0], a, now);
      if h.disposition.Crashed? then
        Panicked(h)
      else
        var timers := if h.disposition.Rescheduled? then s.timers + [Timer(h.task, h.disposition.delay)] else s.timers;
        Stepped(State(s.queue[1..], timers), h)
  }

  /**
   * A timer fires: its one `Enqueue` call is made. The Go code discards the
   * error, so when the queue does not accept the task it is lost.
   */
  function FireTimer(s: State, i: nat, accepted: bool): (r: State)
    requires i < |s.timers|
    ensures r.timers == s.timers[..i] + s.timers[i + 1..]
    ensures accepted ==> r.queue == s.queue + [s.timers[i].task]
    ensures !accepted ==> r.queue == s.queue
  {
    var timers := s.timers[..i] + s.timers[i + 1..];
    if accepted then State(s.queue + [s.timers[i].task], timers) else State(s.queue, timers)
  }

  /**
   * A worker step keeps every owned task within budget, never panics, and
   * hands the processed task on to at most one place: a timer if it was
   * rescheduled, nowhere otherwise.
   */
  lemma StepKeepsBudget(s: State, a: Attempt, now: Instant)
    requires Healthy(s)
    ensures !WorkerStep(s, a, now).Panicked?
    ensures WorkerStep(s, a, now).Stepped? ==> Healthy(WorkerStep(s, a, now).state)
    ensures WorkerStep(s, a, now).Stepped? ==>
      |WorkerStep(s, a, now).state.queue| + |WorkerStep(s, a, now).state.timers|
      == |s.queue| + |s.timers| - (if WorkerStep(s, a, now).handled.disposition.Rescheduled? then 0 else 1)
  {
  }

  /** A firing timer keeps every owned task within budget. */
  lemma FireKeepsBudget(s: State, i: nat, accepted: bool)
    requires Healthy(s) && i < |s.timers|
    ensures Healthy(FireTimer(s, i, accepted))
  {
  }
}
