/** Tasks, envelopes, results and samples: the values that travel through the engine. */
module Core {

  datatype Option<+T> = None | Some(value: T)

  datatype TaskState = Queued | Running | Succeeded | Failed | Rejected

  /** The three instants recorded for every task; steady-clock ticks. */
  datatype TaskTimings = TaskTimings(submitted: int, dequeued: int, finished: int) {
    function QueueWait(): int { dequeued - submitted }
    function ExecutionTime(): int { finished - dequeued }
    function TotalLatency(): int { finished - submitted }

    predicate Ordered() { submitted <= dequeued <= finished }
  }

  /** What calling execute() does: return, throw a std::exception, or throw anything else. */
  datatype Outcome = Returns | ThrowsException(what: string) | ThrowsOther

  /** The value content of a TaskEnvelope: identity, work and submission instant. */
  datatype Envelope = Envelope(id: nat, outcome: Outcome, submitted: int)

  datatype TaskResult = TaskResult(id: nat, state: TaskState, error: string, timings: TaskTimings)

  datatype Sample = Sample(id: nat, state: TaskState, timings: TaskTimings)

  /** The state a task ends in once a worker has run it. */
  function RanState(outcome: Outcome): TaskState
  {
    if outcome.Returns? then Succeeded else Failed
  }

  function ErrorText(outcome: Outcome): string
  {
    match outcome
    case Returns => ""
    case ThrowsException(what) => what
    case ThrowsOther => "unknown exception"
  }

  function RanResult(env: Envelope, timings: TaskTimings): TaskResult
  {
    TaskResult(env.id, RanState(env.outcome), ErrorText(env.outcome), timings)
  }

  function RejectedResult(env: Envelope, finished: int): TaskResult
  {
    TaskResult(env.id, Rejected, "", TaskTimings(env.submitted, finished, finished))
  }

  /** The compact twin of a result, without the message. */
  function SampleOf(result: TaskResult): Sample
  {
    Sample(result.id, result.state, result.timings)
  }
}
