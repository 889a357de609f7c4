/**
 * The intake endpoint: a POST whose body decodes to a request with a
 * target URL becomes a fresh task and is handed to the queue exactly once;
 * every other request is refused before the queue is touched.
 *
 * Decoding the JSON body, generating the task id and reading the clock
 * happen outside the model: their results are inputs.
 */
module Handler {
  import opened Options
  import opened Model
  import opened Queue
  import Worker

  const StatusAccepted: int := 202
  const StatusBadRequest: int := 400
  const StatusMethodNotAllowed: int := 405
  const StatusServiceUnavailable: int := 503

  const MethodPost: string := "POST"

  /** The retry ceiling every new task gets. */
  const DefaultMaxRetries: int := 3

  /** The request body as the JSON decoder saw it. */
  datatype Body = Malformed | Json(request: NotificationRequest)

  /** The parts of an inbound HTTP request the handler looks at. */
  datatype HttpRequest = HttpRequest(httpMethod: string, body: Body)

  /** The validation verdict: refused with a status, or a task to enqueue. */
  datatype Admission = Refused(status: int) | Admitted(task: Task)

  /** What the handler writes back; only a 202 carries the task id. */
  datatype Response = Response(status: int, taskId: Option<string>)

  /** The task built for an accepted request; its next-retry time keeps the zero value. */
  function NewTask(request: NotificationRequest, id: string, now: Instant): Task {
    Task(id, request, 0, DefaultMaxRetries, ZeroTime, now)
  }

  /**
   * The validation ladder, checked in order: the method, then the body,
   * then the target URL. A request that passes all three becomes a fresh
   * task with no retries spent and the default ceiling.
   */
  function Admit(r: HttpRequest, id: string, now: Instant): (a: Admission)
    ensures a == Refused(StatusMethodNotAllowed) <==> r.httpMethod != MethodPost
    ensures a == Refused(StatusBadRequest) <==>
      r.httpMethod == MethodPost && (r.body.Malformed? || r.body.request.targetUrl == "")
    ensures a.Admitted? <==>
      r.httpMethod == MethodPost && r.body.Json? && r.body.request.targetUrl != ""
    ensures a.Admitted? ==>
      && a.task.id == id
      && a.task.request == r.body.request
      && a.task.retryCount == 0
      && a.task.maxRetries == DefaultMaxRetries
      && a.task.createdAt == now
      && a.task.nextRetryAt == ZeroTime
    ensures a.Admitted? ==> WithinBudget(a.task)
  {
    if r.httpMethod != MethodPost then
      Refused(StatusMethodNotAllowed)
    else if r.body.Malformed? then
      Refused(StatusBadRequest)
    else if r.body.request.targetUrl == "" then
      Refused(StatusBadRequest)
    else
      Admitted(NewTask(r.body.request, id, now))
  }

  /** The answer once Enqueue has returned for task `t`. */
  function Reply(t: Task, err: Option<QueueError>): Response {
    if err.Some? then Response(StatusServiceUnavailable, None) else Response(StatusAccepted, Some(t.id))
  }

  /** The response written, and the tasks passed to Enqueue in call order. */
  datatype Served = Served(response: Response, enqueued: seq<Task>)

  /**
   * `ServeHTTP` against a queue whose Enqueue returns `enqueue(t)`: at most
   * one Enqueue call, made exactly for an admitted request; a refusal is
   * answered with its status; an admitted request gets 503 when Enqueue
   * returns an error and 202 with the task id otherwise.
   */
  function ServeHTTP(r: HttpRequest, id: string, now: Instant, enqueue: Task -> Option<QueueError>): (s: Served)
    ensures |s.enqueued| <= 1
    ensures Admit(r, id, now).Refused? ==>
      s.enqueued == [] && s.response == Response(Admit(r, id, now).status, None)
    ensures Admit(r, id, now).Admitted? ==> s.enqueued == [Admit(r, id, now).task]
    ensures s.response.status == StatusServiceUnavailable <==>
      Admit(r, id, now).Admitted? && enqueue(Admit(r, id, now).task).Some?
    ensures s.response.status == StatusAccepted <==>
      Admit(r, id, now).Admitted? && enqueue(Admit(r, id, now).task).None?
    ensures s.response.status == StatusAccepted ==> s.response.taskId == Some(id)
    ensures s.response.status != StatusAccepted ==> s.response.taskId == None
  {
    match Admit(r, id, now)
    case Refused(status) => Served(Response(status, None), [])
    case Admitted(t) => Served(Reply(t, enqueue(t)), [t])
  }

  /** The response, and the Redis list after it. */
  datatype RedisServed = RedisServed(response: Response, list: seq<string>)

  /**
   * The handler wired to RedisQueue, as the program runs it: 503 exactly
   * when an admitted task fails to encode or to be pushed, and the list
   * changes only on a 202, by the task's encoding at the head.
   */
  function ServeWithRedis(list: seq<string>, r: HttpRequest, id: string, now: Instant, c: Codec, reply: PushReply)
    : (out: RedisServed)
    ensures out.response == ServeHTTP(r, id, now, t => RedisEnqueue(list, t, c, reply).err).response
    ensures out.response.status == StatusServiceUnavailable <==>
      Admit(r, id, now).Admitted? && (c.encode(Admit(r, id, now).task).None? || reply.PushFailed?)
    ensures out.response.status != StatusAccepted ==> out.list == list
    ensures out.response.status == StatusAccepted ==>
      c.encode(Admit(r, id, now).task).Some? && out.list == [c.encode(Admit(r, id, now).task).value] + list
  {
    match Admit(r, id, now)
    case Refused(status) => RedisServed(Response(status, None), list)
    case Admitted(t) =>
      var sent := RedisEnqueue(list, t, c, reply);
      RedisServed(Reply(t, sent.err), sent.queue)
  }

  /** With a faithful codec, an accepted request puts exactly its task at the back of what consumers will see. */
  lemma AcceptedTaskJoinsRedisQueue(list: seq<string>, r: HttpRequest, id: string, now: Instant, c: Codec, reply: PushReply)
    requires RoundTrips(c)
    ensures ServeWithRedis(list, r, id, now, c, reply).response.status == StatusAccepted ==>
      Pending(ServeWithRedis(list, r, id, now, c, reply).list, c.decode) == Pending(list, c.decode) + [Admit(r, id, now).task]
  {
    if Admit(r, id, now).Admitted? {
      RedisEnqueueIsFifo(list, Admit(r, id, now).task, c, reply);
    }
  }

  /** The handler against a MemoryQueue: still blocked inside Enqueue, or answered. */
  datatype MemoryServed = Hanging | MemoryServed(response: Response, queue: MemoryQueue)

  /**
   * The handler wired to MemoryQueue as written: an admitted task meets a
   * send that waits while the buffer is full, so the request waits inside
   * Enqueue until a worker frees a slot (then it is answered 202), and 503
   * is never produced.
   */
  function ServeWithMemoryQueue(q: MemoryQueue, r: HttpRequest, id: string, now: Instant): (out: MemoryServed)
    ensures out.Hanging? <==> Admit(r, id, now).Admitted? && |q.buffer| >= q.capacity
    ensures out.MemoryServed? ==> out.response.status != StatusServiceUnavailable
    ensures out.MemoryServed? && out.response.status != StatusAccepted ==> out.queue == q
    ensures out.MemoryServed? && out.response.status == StatusAccepted ==>
      Admit(r, id, now).Admitted? && out.queue == MemoryQueue(q.buffer + [Admit(r, id, now).task], q.capacity)
  {
    match Admit(r, id, now)
    case Refused(status) => MemoryServed(Response(status, None), q)
    case Admitted(t) =>
      match MemoryEnqueue(q, t)
      case SendBlocks => Hanging
      case Sent(q', err) => MemoryServed(Reply(t, err), q')
  }

  /** A valid request against a full MemoryQueue waits inside the send instead of getting the backpressure 503. */
  lemma FullMemoryQueueHangsIntake(q: MemoryQueue, r: HttpRequest, id: string, now: Instant)
    requires |q.buffer| >= q.capacity
    requires r.httpMethod == MethodPost && r.body.Json? && r.body.request.targetUrl != ""
    ensures ServeWithMemoryQueue(q, r, id, now) == Hanging
  {
  }

  /** The response, and the bounded queue after it. */
  datatype BoundedServed = BoundedServed(response: Response, queue: MemoryQueue)

  /**
   * The handler with the non-blocking send its 503 branch was written for:
   * every request is answered, a full buffer yields 503 and leaves the
   * queue unchanged, and otherwise an admitted task is appended with 202.
   */
  function ServeWithBoundedQueue(q: MemoryQueue, r: HttpRequest, id: string, now: Instant): (out: BoundedServed)
    ensures out.response == ServeHTTP(r, id, now, t => TryEnqueue(q, t).err).response
    ensures out.response.status == StatusServiceUnavailable <==>
      Admit(r, id, now).Admitted? && |q.buffer| >= q.capacity
    ensures out.response.status != StatusAccepted ==> out.queue == q
    ensures out.response.status == StatusAccepted ==>
      Admit(r, id, now).Admitted? && out.queue == MemoryQueue(q.buffer + [Admit(r, id, now).task], q.capacity)
  {
    match Admit(r, id, now)
    case Refused(status) => BoundedServed(Response(status, None), q)
    case Admitted(t) =>
      var sent := TryEnqueue(q, t);
      BoundedServed(Reply(t, sent.err), sent.queue)
  }

  /** Every task the intake admits keeps the dispatcher's owned tasks within budget. */
  lemma IntakeKeepsBudget(s: Worker.State, r: HttpRequest, id: string, now: Instant)
    requires Worker.Healthy(s)
    ensures Admit(r, id, now).Admitted? ==>
      Worker.Healthy(Worker.State(s.queue + [Admit(r, id, now).task], s.timers))
  {
  }
}
