/** Messages, tasks and the retry policy (go-ingestion/internal/queue/queue.go).
    Payloads are of an arbitrary type P, since no queue looks inside one: statements about runs can label
    each published payload with a number of its own and so follow single messages. */
module QueueTypes {
  datatype Message<P> = Message(payload: P, headers: map<string, string>)

  datatype Task<P> = Task(id: nat, payload: P, headers: map<string, string>, retryCount: int)

  /** What the subscriber loop makes of a handler's return: nil, ErrDrop, or any other error or a panic. */
  datatype HandlerOutcome = Succeeded | Dropped | Errored

  predicate ShouldDLQ(maxRetries: int, retryCount: int) {
    maxRetries > 0 && retryCount > maxRetries
  }
}
