/** The envelope object a task travels in. */
module Envelopes {
  import opened Core

  /** An envelope as an object: the promise is set at most once, by Run or by Reject. */
  class TaskEnvelope {
    const id: nat
    const outcome: Outcome
    const submitted: int
    var promise: Option<TaskResult>

    constructor (id: nat, outcome: Outcome, now: int)
      ensures Content() == Envelope(id, outcome, now) && promise == None
    {
      this.id := id;
      this.outcome := outcome;
      submitted := now;
      promise := None;
    }

    function Content(): Envelope
    {
      Envelope(id, outcome, submitted)
    }

    /** Executes, sets the promise and returns the matching sample; `finished` is the clock after execute(). */
    method Run(dequeued: int, finished: int) returns (sample: Sample)
      requires promise.None?
      modifies this
      ensures promise == Some(RanResult(Content(), TaskTimings(submitted, dequeued, finished)))
      ensures sample == SampleOf(promise.value)
      ensures promise.value.id == sample.id == id && promise.value.state == sample.state
      ensures promise.value.timings == sample.timings == TaskTimings(submitted, dequeued, finished)
      ensures match outcome
              case Returns => promise.value.state == Succeeded && promise.value.error == ""
              case ThrowsException(what) => promise.value.state == Failed && promise.value.error == what
              case ThrowsOther => promise.value.state == Failed && promise.value.error == "unknown exception"
    {
      var error := "";
      var failed := false;
      match outcome {
        case Returns =>
        case ThrowsException(what) =>
          error := what;
          failed := true;
        case ThrowsOther =>
          error := "unknown exception";
          failed := true;
      }
      var timings := TaskTimings(submitted, dequeued, finished);
      var state := if failed then Failed else Succeeded;
      if failed {
        promise := Some(TaskResult(id, Failed, error, timings));
      } else {
        promise := Some(TaskResult(id, Succeeded, "", timings));
      }
      sample := Sample(id, state, timings);
    }

    method Reject(finished: int)
      requires promise.None?
      modifies this
      ensures promise == Some(RejectedResult(Content(), finished))
      ensures promise.value.id == id && promise.value.state == Rejected && promise.value.error == ""
      ensures promise.value.timings == TaskTimings(submitted, finished, finished)
    {
      promise := Some(TaskResult(id, Rejected, "", TaskTimings(submitted, finished, finished)));
    }
  }
}
