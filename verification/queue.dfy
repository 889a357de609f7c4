/**
 * The two queue backends of the notification system, as values.
 *
 * MemoryQueue is a buffered Go channel: a FIFO buffer of fixed capacity
 * where a send waits while the buffer is full and a receive waits while it
 * is empty. Waiting is modelled as a result that changes nothing.
 *
 * RedisQueue is one Redis list: Enqueue pushes the task's encoding at the
 * head (LPUSH), Dequeue pops from the tail (BRPOP) and skips entries that
 * do not decode. A list is a seq<string> whose index 0 is the head. The
 * JSON codec is a pair of function values; that decoding undoes encoding
 * is a hypothesis of the lemmas that need it, not a fact of the model.
 */
module Queue {
  import opened Options
  import opened Model

  /** The errors an `Enqueue` can return. */
  datatype QueueError =
    | EncodeFailed      // json.Marshal returned an error
    | ConnectionFailed  // the LPUSH round trip returned an error
    | QueueFull         // reported only by the non-blocking TryEnqueue

  /** The outcome of an `Enqueue`: still waiting, or returned with this error (None is nil). */
  datatype Send<Q> = SendBlocks | Sent(queue: Q, err: Option<QueueError>)

  /** The outcome of a channel receive: still waiting, or the oldest task. */
  datatype Receive<Q> = ReceiveBlocks | Received(task: Task, queue: Q)

  // ---------------------------------------------------------------- memory

  /** A buffered channel: `buffer[0]` is the oldest task. */
  datatype MemoryQueue = MemoryQueue(buffer: seq<Task>, capacity: nat)

  /** `make(chan *Task, size)`: a negative size panics, which is None here. */
  function NewMemoryQueue(size: int): (r: Option<MemoryQueue>)
    ensures r.Some? <==> size >= 0
    ensures r.Some? ==> r.value.buffer == [] && r.value.capacity == size
  {
    if size < 0 then None else Some(MemoryQueue([], size))
  }

  /**
   * `MemoryQueue.Enqueue`: the send completes only while the buffer has
   * room, then the task joins the back and the error is always nil.
   */
  function MemoryEnqueue(q: MemoryQueue, t: Task): (r: Send<MemoryQueue>)
    ensures r.SendBlocks? <==> |q.buffer| >= q.capacity
    ensures r.Sent? ==> r.err == None && r.queue == MemoryQueue(q.buffer + [t], q.capacity)
  {
    if |q.buffer| < q.capacity then Sent(MemoryQueue(q.buffer + [t], q.capacity), None) else SendBlocks
  }

  /** `MemoryQueue.Dequeue`: waits on an empty buffer, else removes and returns the oldest task. */
  function MemoryDequeue(q: MemoryQueue): (r: Receive<MemoryQueue>)
    ensures r.ReceiveBlocks? <==> q.buffer == []
    ensures r.Received? ==> [r.task] + r.queue.buffer == q.buffer && r.queue.capacity == q.capacity
  {
    if q.buffer == [] then ReceiveBlocks else Received(q.buffer[0], MemoryQueue(q.buffer[1..], q.capacity))
  }

  /**
   * The send the intake's 503 branch expects: it never waits, and a full
   * buffer is reported as QueueFull with the queue left as it was.
   */
  function TryEnqueue(q: MemoryQueue, t: Task): (r: Send<MemoryQueue>)
    ensures r.Sent?
    ensures |q.buffer| >= q.capacity ==> r.queue == q && r.err == Some(QueueFull)
    ensures |q.buffer| < q.capacity ==> r.queue == MemoryQueue(q.buffer + [t], q.capacity) && r.err == None
  {
    if |q.buffer| < q.capacity then Sent(MemoryQueue(q.buffer + [t], q.capacity), None) else Sent(q, Some(QueueFull))
  }

  /** Sends every task of `ts` in order; waits as soon as one send would wait. */
  function EnqueueAll(q: MemoryQueue, ts: seq<Task>): Send<MemoryQueue>
    decreases |ts|
  {
    if ts == [] then
      Sent(q, None)
    else
      match MemoryEnqueue(q, ts[0])
      case SendBlocks => SendBlocks
      case Sent(q', _) => EnqueueAll(q', ts[1..])
  }

  /** The tasks `n` receives returned, in order, and the queue after them. */
  datatype Drained = Drained(tasks: seq<Task>, queue: MemoryQueue)

  /** Makes `n` receives in a row; None when one of them would wait. */
  function DequeueAll(q: MemoryQueue, n: nat): Option<Drained>
    decreases n
  {
    if n == 0 then
      Some(Drained([], q))
    else
      match MemoryDequeue(q)
      case ReceiveBlocks => None
      case Received(t, q') =>
        match DequeueAll(q', n - 1)
        case None => None
        case Some(d) => Some(Drained([t] + d.tasks, d.queue))
  }

  /** Sends that fit in the buffer all complete, and append in order. */
  lemma {:induction false} EnqueueAllAppends(q: MemoryQueue, ts: seq<Task>)
    requires |q.buffer| + |ts| <= q.capacity
    ensures EnqueueAll(q, ts) == Sent(MemoryQueue(q.buffer + ts, q.capacity), None)
    decreases |ts|
  {
    if ts != [] {
      var q' := MemoryQueue(q.buffer + [ts[0]], q.capacity);
      assert MemoryEnqueue(q, ts[0]) == Sent(q', None);
      assert EnqueueAll(q, ts) == EnqueueAll(q', ts[1..]);
      EnqueueAllAppends(q', ts[1..]);
      assert q'.buffer + ts[1..] == q.buffer + ts;
    } else {
      assert q.buffer + ts == q.buffer;
    }
  }

  /** `n` receives return the `n` oldest tasks, oldest first. */
  lemma {:induction false} DequeueAllTakesOldest(q: MemoryQueue, n: nat)
    requires n <= |q.buffer|
    ensures DequeueAll(q, n) == Some(Drained(q.buffer[..n], MemoryQueue(q.buffer[n..], q.capacity)))
    decreases n
  {
    if n > 0 {
      var q' := MemoryQueue(q.buffer[1..], q.capacity);
      DequeueAllTakesOldest(q', n - 1);
      assert [q.buffer[0]] + q'.buffer[..n - 1] == q.buffer[..n];
      assert q'.buffer[n - 1..] == q.buffer[n..];
    }
  }

  /** The channel is FIFO: tasks sent into an empty queue come out in the order they went in. */
  lemma {:induction false} MemoryFifo(capacity: nat, ts: seq<Task>)
    requires |ts| <= capacity
    ensures EnqueueAll(MemoryQueue([], capacity), ts) == Sent(MemoryQueue(ts, capacity), None)
    ensures DequeueAll(MemoryQueue(ts, capacity), |ts|) == Some(Drained(ts, MemoryQueue([], capacity)))
  {
    EnqueueAllAppends(MemoryQueue([], capacity), ts);
    assert [] + ts == ts;
    DequeueAllTakesOldest(MemoryQueue(ts, capacity), |ts|);
    assert ts[..|ts|] == ts;
    assert ts[|ts|..] == [];
  }

  // ----------------------------------------------------------------- redis

  /** `json.Marshal` (None when it fails) and `json.Unmarshal` (None when it fails). */
  datatype Codec = Codec(encode: Task -> Option<string>, decode: string -> Option<Task>)

  /** Decoding an encoding gives back the task, field by field. */
  ghost predicate RoundTrips(c: Codec) {
    forall t :: c.encode(t).Some? ==> c.decode(c.encode(t).value) == Some(t)
  }

  /** How the LPUSH round trip went. */
  datatype PushReply = PushOk | PushFailed

  /**
   * `RedisQueue.Enqueue`: an encoding failure is returned before Redis is
   * contacted; otherwise the encoding goes to the head of the list, unless
   * the push itself fails.
   */
  function RedisEnqueue(list: seq<string>, t: Task, c: Codec, reply: PushReply): (r: Send<seq<string>>)
    ensures r.Sent?
    ensures c.encode(t).None? ==> r == Sent(list, Some(EncodeFailed))
    ensures c.encode(t).Some? && reply.PushFailed? ==> r == Sent(list, Some(ConnectionFailed))
    ensures c.encode(t).Some? && reply.PushOk? ==> r == Sent([c.encode(t).value] + list, None)
  {
    match c.encode(t)
    case None => Sent(list, Some(EncodeFailed))
    case Some(data) =>
      if reply.PushOk? then Sent([data] + list, None) else Sent(list, Some(ConnectionFailed))
  }

  /** The tasks an entry stands for: itself if it decodes, nothing if it does not. */
  function Decoded(entry: string, decode: string -> Option<Task>): seq<Task> {
    match decode(entry)
    case None => []
    case Some(t) => [t]
  }

  /** The tasks consumers will be handed, in order: the decodable entries read from the tail. */
  function Pending(list: seq<string>, decode: string -> Option<Task>): seq<Task>
    decreases |list|
  {
    if list == [] then [] else Decoded(list[|list| - 1], decode) + Pending(list[..|list| - 1], decode)
  }

  /** Pushing at the head adds the entry's task at the back of what consumers will see. */
  lemma {:induction false} PendingAfterPush(list: seq<string>, entry: string, decode: string -> Option<Task>)
    ensures Pending([entry] + list, decode) == Pending(list, decode) + Decoded(entry, decode)
    decreases |list|
  {
    var pushed := [entry] + list;
    if list == [] {
      assert pushed[..0] == [];
    } else {
      assert pushed[|pushed| - 1] == list[|list| - 1];
      assert pushed[..|pushed| - 1] == [entry] + list[..|list| - 1];
      PendingAfterPush(list[..|list| - 1], entry, decode);
    }
  }

  /**
   * With a faithful codec the list is a FIFO queue of tasks: a successful
   * Enqueue appends exactly the submitted task, a failed one changes nothing.
   */
  lemma RedisEnqueueIsFifo(list: seq<string>, t: Task, c: Codec, reply: PushReply)
    requires RoundTrips(c)
    ensures RedisEnqueue(list, t, c, reply).err == None ==>
      Pending(RedisEnqueue(list, t, c, reply).queue, c.decode) == Pending(list, c.decode) + [t]
    ensures RedisEnqueue(list, t, c, reply).err != None ==>
      RedisEnqueue(list, t, c, reply).queue == list
  {
    var r := RedisEnqueue(list, t, c, reply);
    if r.err == None {
      PendingAfterPush(list, c.encode(t).value, c.decode);
    }
  }

  /** What a Dequeue ends with: a decoded task, or still waiting; and the list left behind. */
  datatype Retrieved = Retrieved(task: Task, list: seq<string>) | Waiting(list: seq<string>)

  /** The reference behaviour of Dequeue once Redis answers: pop from the tail until an entry decodes. */
  function TakeFromTail(list: seq<string>, decode: string -> Option<Task>): Retrieved
    decreases |list|
  {
    if list == [] then
      Waiting([])
    else
      match decode(list[|list| - 1])
      case Some(t) => Retrieved(t, list[..|list| - 1])
      case None => TakeFromTail(list[..|list| - 1], decode)
  }

  /**
   * Skipping undecodable entries loses no task: the task returned is the
   * first one consumers were due, and waiting happens only when none was due.
   */
  lemma {:induction false} TakeFromTailIsPendingHead(list: seq<string>, decode: string -> Option<Task>)
    ensures TakeFromTail(list, decode).Waiting? ==>
      TakeFromTail(list, decode).list == [] && Pending(list, decode) == []
    ensures TakeFromTail(list, decode).Retrieved? ==>
      Pending(list, decode) == [TakeFromTail(list, decode).task] + Pending(TakeFromTail(list, decode).list, decode)
    decreases |list|
  {
    if list != [] && decode(list[|list| - 1]).None? {
      TakeFromTailIsPendingHead(list[..|list| - 1], decode);
    }
  }

  /** A task pushed onto an empty list with a faithful codec comes back equal, and the list is empty again. */
  lemma RedisRoundTrip(t: Task, c: Codec)
    requires RoundTrips(c) && c.encode(t).Some?
    ensures RedisEnqueue([], t, c, PushOk).err == None
    ensures TakeFromTail(RedisEnqueue([], t, c, PushOk).queue, c.decode) == Retrieved(t, [])
  {
  }

  /** How one BRPOP round trip went: Redis answered, or the connection failed. */
  datatype PopReply = PopOk | PopFailed

  /** The number of round trips Redis answered. */
  function Answered(replies: seq<PopReply>): nat
    decreases |replies|
  {
    if replies == [] then 0 else (if replies[0].PopOk? then 1 else 0) + Answered(replies[1..])
  }

  /**
   * The answered BRPOP round trips Dequeue needs before it returns: one
   * for each undecodable entry above the first decodable one from the
   * tail, plus the pop that returns it (or, when nothing decodes, the pop
   * that finds the list empty and waits).
   */
  function Needed(list: seq<string>, decode: string -> Option<Task>): (n: nat)
    ensures n >= 1
    decreases |list|
  {
    if list == [] || decode(list[|list| - 1]).Some? then 1 else 1 + Needed(list[..|list| - 1], decode)
  }

  /** Dequeue never needs more answered round trips than the list has entries, plus one. */
  lemma {:induction false} NeededAtMostLength(list: seq<string>, decode: string -> Option<Task>)
    ensures Needed(list, decode) <= |list| + 1
    decreases |list|
  {
    if list != [] && decode(list[|list| - 1]).None? {
      NeededAtMostLength(list[..|list| - 1], decode);
    }
  }

  /**
   * `RedisQueue.Dequeue`, driven by the outcomes of its BRPOP round trips.
   * A failed round trip leaves the list alone and the loop tries again; an
   * answered one on an empty list waits; otherwise the tail entry is
   * removed, and returned if it decodes, skipped if it does not. The result
   * never reports an error to the worker.
   */
  method RedisDequeue(list: seq<string>, c: Codec, replies: seq<PopReply>) returns (r: Retrieved)
    ensures r.list <= list
    ensures r.Retrieved? ==> |r.list| < |list| && c.decode(list[|r.list|]) == Some(r.task)
    ensures forall k :: |r.list| + (if r.Retrieved? then 1 else 0) <= k < |list| ==> c.decode(list[k]).None?
    ensures Answered(replies) >= Needed(list, c.decode) ==> r == TakeFromTail(list, c.decode)
  {
    var rest := list;
    var i := 0;
    while i < |replies|
      invariant 0 <= i <= |replies|
      invariant rest <= list
      invariant forall k :: |rest| <= k < |list| ==> c.decode(list[k]).None?
      invariant TakeFromTail(rest, c.decode) == TakeFromTail(list, c.decode)
      invariant Answered(replies) >= Needed(list, c.decode) ==> Answered(replies[i..]) >= Needed(rest, c.decode)
      decreases |replies| - i
    {
      assert replies[i..][1..] == replies[i + 1..];
      var reply := replies[i];
      i := i + 1;
      if reply.PopFailed? {
        continue;
      }
      if rest == [] {
        return Waiting(rest);
      }
      var entry := rest[|rest| - 1];
      rest := rest[..|rest| - 1];
      var decoded := c.decode(entry);
      if decoded.Some? {
        return Retrieved(decoded.value, rest);
      }
    }
    return Waiting(rest);
  }
}
