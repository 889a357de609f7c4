/**
 * The records the notification system moves around: the webhook a caller
 * asked for, and the task that wraps it with retry bookkeeping.
 *
 * Instants are integers counting nanoseconds since Go's zero `time.Time`
 * (January 1, year 1, UTC), so a time field left at its zero value is 0.
 */
module Model {

  /** An instant, in nanoseconds since Go's zero time. */
  type Instant = int

  /** The zero value of a `time.Time` field. */
  const ZeroTime: Instant := 0

  /** The webhook to deliver, as the caller supplied it. */
  datatype NotificationRequest = NotificationRequest(
    targetUrl: string,
    httpMethod: string,
    headers: map<string, string>,
    body: string)

  /** A queued unit of delivery work: the request plus its retry state. */
  datatype Task = Task(
    id: string,
    request: NotificationRequest,
    retryCount: int,
    maxRetries: int,
    nextRetryAt: Instant,
    createdAt: Instant)

  /** The retry counter is non-negative and has not passed the ceiling. */
  predicate WithinBudget(t: Task) {
    0 <= t.retryCount <= t.maxRetries
  }

  /** `u` describes the same delivery as `t`: only the retry fields may differ. */
  predicate SameDelivery(t: Task, u: Task) {
    && u.id == t.id
    && u.request == t.request
    && u.maxRetries == t.maxRetries
    && u.createdAt == t.createdAt
  }
}
