# Webhook dispatcher: delivery decisions, queues and intake

This project models the core of a small notification system. The system
accepts webhook-delivery requests over HTTP, queues them, and delivers them
from a pool of workers. Failed deliveries are retried with exponential
backoff until a retry ceiling is reached. The model covers three pure
pieces, each stated as functions over immutable values:

- **Delivery decision** (`Worker`, from `internal/worker/dispatcher.go`).
  One attempt ends in one of five ways:
  - the request could not be built, so the task is dropped;
  - a 2xx response, so the task is delivered;
  - a failure at the retry ceiling, so the task is dead-lettered;
  - a failure below the ceiling, so the counter is incremented and exactly
    one re-submission is scheduled after `2^count` seconds;
  - a Go runtime panic, when the incremented count is negative.

  A worker step over the queue plus the pending timers shows how tasks
  move between the queue, the timers and disposal.
- **Queues** (`Queue`, from `internal/queue/queue.go`). The in-memory
  queue is a buffered channel with a fixed capacity. The Redis queue is one
  list: it pushes at the head, pops from the tail, and skips entries that
  do not decode. JSON is an abstract codec, and the lemmas that need decoding
  to undo encoding take that as a hypothesis.
- **Intake** (`Handler`, from `internal/handler/notify.go`). Requests are
  checked in order: the method (405), the body (400), then the target URL
  (400). A valid request becomes a fresh task (count 0, ceiling 3) and is
  passed to `Enqueue` exactly once. An error from `Enqueue` gives 503.
  Otherwise the answer is 202 with the task id.

Instants are integers that count nanoseconds since Go's zero `time.Time`,
so a time field left at its zero value is 0. Durations are in nanoseconds
too. The backoff is computed with the same int64 wrap-around as
`time.Duration(1<<n) * time.Second`. `Worker.BackoffIsPowerOfTwoSeconds`
shows that the result is exactly `2^n` seconds up to n = 33.
`Worker.BackoffWrapsAt34` shows that at n = 34 it wraps to a negative delay.
Past that the sign varies (`Worker.BackoffPositiveAt37`), and from n = 64 on
the delay is 0 (`Worker.BackoffVanishesFrom64`).

The comment above the backoff line says "1s, 2s, 4s". The code increments
the counter before it computes the delay, so the delays of a fresh task are
2s, 4s and 8s. The model follows the code (`Worker.FreshTaskFailingFourTimes`).

The handler's own comment at internal/handler/notify.go:53 says a full
internal queue is answered with 503 to apply backpressure. The code instead
blocks in `MemoryQueue.Enqueue` until a worker frees a slot, and always
returns nil. The model follows the code: the 503 branch is reachable only
through a Redis error.
The non-blocking variant is modelled separately under "## Findings".

## Model

| member | source | states |
|---|---|---|
| Worker.Process | internal/worker/dispatcher.go:42-80 | a task is dropped exactly when the request cannot be built, and delivered exactly when a response with status in [200, 300) came back; every other outcome (transport error, any other status) is what the failure policy decides; a delivered or dropped task is left untouched |
| Worker.HandleFailure | internal/worker/dispatcher.go:82-103 | at or past the ceiling the task is dead-lettered unchanged; below it the counter goes up by exactly one, exactly one re-submission is scheduled with delay `BackoffNanos` of the new count, and `nextRetryAt` is now plus that delay; a negative new count panics; id, request, ceiling and creation time never change; a task within budget stays within budget and never panics |
| Worker.BackoffIsPowerOfTwoSeconds | internal/worker/dispatcher.go:91 | for counts up to 33 the int64 computation of the backoff does not wrap and equals 2^count seconds |
| Worker.BackoffNanos | internal/worker/dispatcher.go:91 | the backoff is an int64 number of nanoseconds, computed with the wrap-around of both the shift and the multiplication; its value is pinned down by the lemmas below |
| Worker.BackoffWrapsAt34 | internal/worker/dispatcher.go:91 | at count 34 the int64 multiplication by one second overflows and the delay is negative |
| Worker.BackoffPositiveAt37 | internal/worker/dispatcher.go:91 | at count 37 the wrapped delay is positive again, so the overflow does not simply make every later delay negative |
| Worker.BackoffVanishesFrom64 | internal/worker/dispatcher.go:91 | from count 64 on the int64 shift leaves no bits and the delay is 0 |
| Worker.RetriesBounded | internal/worker/dispatcher.go:83-89 | over any sequence of attempts, a task within budget is re-submitted at most `maxRetries - retryCount` times; the counter rises by one per re-submission and never passes the ceiling; the delivery fields never change; the backoff never panics |
| Worker.BackoffSchedule | internal/worker/dispatcher.go:89-92 | while no wrap-around is possible, the i-th re-submission waits 2^(retryCount + i + 1) seconds, using the incremented count |
| Worker.FailuresExhaustBudget | internal/worker/dispatcher.go:77-102 | a task that fails every attempt is re-submitted once per attempt while budget remains; the attempt after the budget is spent dead-letters it, and no further re-submission follows |
| Worker.FreshTaskFailingFourTimes | internal/worker/dispatcher.go:83-102 | a fresh task (count 0, ceiling 3) failing four times is retried after 2s, 4s and 8s, and is then dead-lettered with count 3 |
| Worker.WorkerStep | internal/worker/dispatcher.go:35-40 | one loop iteration waits on an empty queue; a panicking backoff ends the process, so that step has no successor state and every pending timer is lost; otherwise it removes the oldest task, processes it, and adds one timer exactly when the task was rescheduled; nothing else in the state changes |
| Worker.FireTimer | internal/worker/dispatcher.go:99-102 | a firing timer makes one Enqueue call and disappears; the task joins the back of the queue if accepted, and since the error is discarded it is lost otherwise |
| Worker.StepKeepsBudget | internal/worker/dispatcher.go:35-40 | if every task in the queue and in the timers is within budget, a worker step never panics and the same holds after it; the task count drops by one, unless the task moved to a new timer |
| Worker.FireKeepsBudget | internal/worker/dispatcher.go:99-102 | a firing timer keeps every owned task within budget |
| Queue.NewMemoryQueue | internal/queue/queue.go:25-29 | a non-negative size gives an empty buffer with that capacity; a negative size panics (no queue) |
| Queue.MemoryEnqueue | internal/queue/queue.go:31-34 | the send waits exactly while the buffer is full; when it completes, the task is appended at the back and the error is always nil |
| Queue.MemoryDequeue | internal/queue/queue.go:36-38 | the receive waits exactly while the buffer is empty; otherwise it removes and returns the oldest task |
| Queue.EnqueueAllAppends | internal/queue/queue.go:31-34 | sends that fit in the free capacity all complete without error and append the tasks in order |
| Queue.DequeueAllTakesOldest | internal/queue/queue.go:36-38 | n receives return the n oldest tasks, oldest first, and leave the rest |
| Queue.MemoryFifo | internal/queue/queue.go:25-38 | tasks sent into an empty channel come out in the order they were sent |
| Queue.TryEnqueue | internal/handler/notify.go:52-56 | the corrected non-blocking send: a full buffer reports QueueFull and leaves the queue unchanged; otherwise the task is appended with a nil error |
| Queue.RedisEnqueue | internal/queue/queue.go:66-73 | an encoding failure is returned and the list is unchanged; otherwise the encoding is pushed at the head, unless the push round trip fails, in which case the list is unchanged |
| Queue.PendingAfterPush | internal/queue/queue.go:72-79 | pushing an entry at the head adds its task at the back of the sequence consumers receive from the tail |
| Queue.RedisEnqueueIsFifo | internal/queue/queue.go:66-79 | with a codec whose decoding undoes encoding, a successful Enqueue appends exactly the submitted task to what consumers will receive, and a failed Enqueue leaves the list as it was |
| Queue.TakeFromTailIsPendingHead | internal/queue/queue.go:86-98 | popping from the tail and skipping undecodable entries returns the first task consumers were due, with the rest unchanged; the loop waits only after it has emptied a list with nothing decodable in it |
| Queue.RedisRoundTrip | internal/queue/queue.go:67-98 | with a codec whose decoding undoes encoding, a task pushed onto an empty list is popped back equal field by field, and the list is empty again |
| Queue.RedisDequeue | internal/queue/queue.go:75-100 | the loop only removes entries from the tail; every removed entry except the returned one was undecodable; the returned task is the decoding of the entry just below what is left; a failed pop is retried, never reported; once Redis has answered as many pops as the loop needs (one per undecodable tail entry plus the one that returns or waits, `Needed`) the result is the tail-first reference, so one answered pop on a list whose tail decodes returns that task |
| Queue.NeededAtMostLength | internal/queue/queue.go:75-98 | the loop never needs more answered pops than the list has entries, plus one |
| Handler.Admit | internal/handler/notify.go:25-49 | 405 exactly for a non-POST; 400 exactly for a POST whose body does not decode or whose target URL is empty; otherwise a task with the given id, the decoded request, count 0, ceiling 3, creation time now and a zero next-retry time |
| Handler.ServeHTTP | internal/handler/notify.go:24-62 | Enqueue is called at most once, exactly for an admitted request and with its task; a refusal is answered with its status; 503 exactly when Enqueue returns an error; 202 exactly when it returns nil, and only a 202 carries the task id |
| Handler.ServeWithRedis | internal/handler/notify.go:52-61 | wired to the Redis queue, 503 comes exactly from an encoding or push failure of an admitted task; the list changes only on a 202, by that task's encoding at the head |
| Handler.AcceptedTaskJoinsRedisQueue | internal/handler/notify.go:44-61 | with a codec whose decoding undoes encoding, a 202 puts exactly the new task at the back of what consumers will receive |
| Handler.ServeWithMemoryQueue | internal/handler/notify.go:52-61 | wired to the memory queue as written, an admitted request hangs exactly when the buffer is full; 503 is never produced; the queue changes only on a 202, by the new task at the back |
| Handler.FullMemoryQueueHangsIntake | internal/handler/notify.go:52-56 | a valid request against a full memory queue waits inside the send until a worker frees a slot, and the backpressure 503 is never sent |
| Handler.ServeWithBoundedQueue | internal/handler/notify.go:52-56 | with the non-blocking send, a full buffer gives 503 with the queue unchanged; every request is answered; otherwise an admitted task is appended and answered 202 |
| Handler.IntakeKeepsBudget | internal/handler/notify.go:44-52 | a task admitted by the intake keeps every task the dispatcher owns within its retry budget |

## Left out

- The worker pool, `NewDispatcher`, `Run` and the endless `worker` loop: these are goroutines. One iteration of the loop is `Worker.WorkerStep`.
- The sleeping goroutine of a re-submission: it is a `Worker.Timer` holding the task and its delay. Real time and sleeping are not modelled.
- `http.NewRequest`, `Client.Do`, the 10-second client timeout and header canonicalisation: these are net/http behaviour. The attempt outcome is an input (`Worker.Attempt`).
- `time.Now` and `time.Time` arithmetic: instants are unbounded integers, and `Add` is integer addition.
- The JSON encoding of tasks and the decoding of request bodies: these are encoding/json. The task codec is a pair of function values (`Queue.Codec`), and the decoded body is an input (`Handler.Body`).
- The Redis client, `NewRedisQueue`, `Ping` and contexts: these are the network. Each LPUSH and BRPOP round trip outcome is an input. A failed LPUSH is modelled as not applied.
- Queue.RedisDequeue: a failed BRPOP is modelled as not applied; a pop Redis executed whose reply was lost drops the entry and its task, which the model does not represent.
- The one-second sleep after a failed BRPOP: this is time. The retry itself is modelled.
- The `len(result) < 2` guard in `RedisQueue.Dequeue`: BRPOP always answers with a key and a value, so this branch has no modelled input.
- A memory queue of capacity 0: an unbuffered channel hands a task straight to a waiting receiver. The model has no concurrent receiver, so such a queue never accepts.
- A worker freeing a slot while an intake send waits: the model has no concurrent receiver, so `Handler.ServeWithMemoryQueue` reports the waiting send as `Hanging`. In the running program the send completes once a worker receives, and the handler then answers 202.
- Several producers racing on the Redis list, and the `Queue` interface as a runtime choice: the two backends are separate values.
- Queue.NewMemoryQueue: `make` also panics for a size past the runtime's allocation limit ("makechan: size out of range"); the model has no memory limit, so only a negative size panics.
- Task id generation from the clock and `rand.Intn`: the id is a parameter.
- Response bodies, headers and all logging.
- main.go: configuration, start-up and `ListenAndServe`. Its inline handler repeats internal/handler/notify.go, so it is modelled once, in `Handler`.
- Worker.Run: it assumes each re-submission is picked up again unchanged, as `Queue.RedisRoundTrip` and `Queue.MemoryFifo` justify for a faithful codec; losses between timer and queue are modelled only in `Worker.FireTimer`.
- Go's 64-bit `int` for the counters: they are unbounded here. The increment cannot overflow, because it happens only below the ceiling.

## Findings

| source | as written | input that shows it | evidently intended | confidence | as-written member | corrected member |
|---|---|---|---|---|---|---|
| internal/handler/notify.go:52-56 | the handler answers 503 "if internal queue is full", but `MemoryQueue.Enqueue` blocks on a full channel and always returns nil | a memory queue of capacity 1 already holding one task, and a POST with a decodable body and a non-empty target URL: the handler waits inside the send until a worker frees a slot, then answers 202; 503 is never sent | a non-blocking send that reports a full buffer, so the caller gets 503 and the queue is unchanged | medium, not executed | Handler.FullMemoryQueueHangsIntake | Handler.ServeWithBoundedQueue |
