/** The upload page's wait for an asynchronous analysis job: ask for the job's status, stop on a
    finished job, a failed job or a failed request, otherwise wait two seconds and ask again,
    giving up once more than two minutes have passed since the first request.

    The clock is modelled by each reply's latency: `answers(k)` is the `k`-th status request's
    settled reply together with the milliseconds it took, and the two-second wait adds exactly
    its interval. */
module AnalysisPoll {
  import opened Common
  import opened UploadForm

  /** `2 * 60 * 1000`: the client-side limit on the whole wait, in milliseconds. */
  const PollTimeoutMs: nat := 120000

  /** Milliseconds between one status reply and the next request. */
  const PollIntervalMs: nat := 2000

  const TimeoutMessage: string := "Analysis timed out. Please try again."
  const AnalysisFailed: string := "Analysis failed"

  /** A reply of `getAnalyzeStatus`: the job's status, its result if any, and `error?.message`. */
  datatype JobStatus = JobStatus(status: string, result: Option<AnalysisResult>, errorMessage: Option<string>)

  /** One status request: its settled reply and how long it took. */
  datatype Answer = Answer(reply: Result<JobStatus>, took: nat)

  datatype Outcome =
    | Completed(result: AnalysisResult)
    | JobFailed(message: string)
    | RequestFailed(message: string)
    | TimedOut

  /** How a wait ended, after how many status requests, and when (ms after it began). */
  datatype Polled = Polled(outcome: Outcome, requests: nat, elapsed: nat)

  /** `status === 'done' && result`. */
  predicate IsDone(s: JobStatus) {
    s.status == "done" && s.result.Some?
  }

  predicate IsError(s: JobStatus) {
    s.status == "error"
  }

  /** A reply after which the loop waits and asks again. */
  predicate Pending(a: Answer) {
    a.reply.Ok? && !IsDone(a.reply.value) && !IsError(a.reply.value)
  }

  /** The wait from the `k`-th request on, `elapsed` ms after it began. The limit is checked
      before each request, and only a strictly larger elapsed time stops it. */
  function PollFrom(answers: nat -> Answer, k: nat, elapsed: nat): Polled
    decreases PollTimeoutMs + 1 - elapsed
  {
    if elapsed > PollTimeoutMs then Polled(TimedOut, k, elapsed)
    else
      var a := answers(k);
      var after := elapsed + a.took;
      match a.reply
      case Err(m) => Polled(RequestFailed(m), k + 1, after)
      case Ok(s) =>
        if IsDone(s) then Polled(Completed(s.result.value), k + 1, after)
        else if IsError(s) then Polled(JobFailed(OrDefault(s.errorMessage, AnalysisFailed)), k + 1, after)
        else PollFrom(answers, k + 1, after + PollIntervalMs)
  }

  /** The `poll` loop of the upload page. */
  method Poll(answers: nat -> Answer) returns (p: Polled)
    ensures p == PollFrom(answers, 0, 0)
  {
    var k: nat := 0;
    var elapsed: nat := 0;
    while true
      invariant PollFrom(answers, k, elapsed) == PollFrom(answers, 0, 0)
      decreases PollTimeoutMs + 1 - elapsed
    {
      if elapsed > PollTimeoutMs {
        return Polled(TimedOut, k, elapsed);
      }
      var a := answers(k);
      var after := elapsed + a.took;
      match a.reply {
        case Err(m) =>
          return Polled(RequestFailed(m), k + 1, after);
        case Ok(s) =>
          if s.status == "done" && s.result.Some? {
            return Polled(Completed(s.result.value), k + 1, after);
          }
          if s.status == "error" {
            return Polled(JobFailed(OrDefault(s.errorMessage, AnalysisFailed)), k + 1, after);
          }
      }
      k := k + 1;
      elapsed := after + PollIntervalMs;
    }
  }

  /** Every wait ends, and how it ends is decided by the replies: it times out only after all its
      replies were pending and the limit was passed; otherwise its last reply is the first one
      that was not pending, and the outcome carries that reply's result or message. A job error
      without a message reads "Analysis failed". */
  lemma {:induction false} PollSpec(answers: nat -> Answer, k: nat, elapsed: nat)
    ensures var p := PollFrom(answers, k, elapsed);
      && p.requests >= k && p.elapsed >= elapsed
      && (elapsed <= PollTimeoutMs ==> p.requests > k)
      && (forall i :: k <= i < p.requests - 1 ==> Pending(answers(i)))
      && (p.outcome.TimedOut? <==> p.elapsed > PollTimeoutMs && (p.requests == k || Pending(answers(p.requests - 1))))
      && (p.outcome.Completed? ==>
            var last := answers(p.requests - 1).reply;
            last.Ok? && IsDone(last.value) && p.outcome.result == last.value.result.value)
      && (p.outcome.JobFailed? ==>
            var last := answers(p.requests - 1).reply;
            last.Ok? && IsError(last.value) && !IsDone(last.value)
            && p.outcome.message == OrDefault(last.value.errorMessage, AnalysisFailed)
            && p.outcome.message != "")
      && (p.outcome.RequestFailed? ==> answers(p.requests - 1).reply == Err(p.outcome.message))
    decreases PollTimeoutMs + 1 - elapsed
  {
    if elapsed <= PollTimeoutMs {
      var a := answers(k);
      if Pending(a) {
        PollSpec(answers, k + 1, elapsed + a.took + PollIntervalMs);
      }
    }
  }

  /** When every status request takes no time and the job never finishes, the wait asks 61
      times (at 0, 2, …, 120 seconds) and then times out at 122 seconds. */
  lemma AllPendingTimesOut(answers: nat -> Answer)
    requires forall i :: Pending(answers(i)) && answers(i).took == 0
    ensures PollFrom(answers, 0, 0) == Polled(TimedOut, 61, 122000)
  {
    PendingChecks(answers, 0, 0);
  }

  /** Number of requests made from `elapsed` on when every reply is pending and instant. */
  function ChecksLeft(elapsed: nat): nat {
    if elapsed > PollTimeoutMs then 0 else (PollTimeoutMs - elapsed) / PollIntervalMs + 1
  }

  lemma {:induction false} PendingChecks(answers: nat -> Answer, k: nat, elapsed: nat)
    requires forall i :: Pending(answers(i)) && answers(i).took == 0
    ensures PollFrom(answers, k, elapsed)
      == Polled(TimedOut, k + ChecksLeft(elapsed), elapsed + PollIntervalMs * ChecksLeft(elapsed))
    decreases PollTimeoutMs + 1 - elapsed
  {
    if elapsed <= PollTimeoutMs {
      assert Pending(answers(k)) && answers(k).took == 0;
      PendingChecks(answers, k + 1, elapsed + PollIntervalMs);
      assert ChecksLeft(elapsed) == ChecksLeft(elapsed + PollIntervalMs) + 1;
    }
  }

  /** The message the page shows when the wait does not complete: `err.message || "Analysis
      failed"`, where the timeout throws its own message. */
  function FailureMessage(o: Outcome): (r: string)
    requires !o.Completed?
    ensures r != ""
    ensures o.TimedOut? ==> r == TimeoutMessage
    ensures o.JobFailed? && o.message != "" ==> r == o.message
    ensures o.RequestFailed? ==> r == OrElse(o.message, AnalysisFailed)
  {
    match o
    case TimedOut => TimeoutMessage
    case JobFailed(m) => OrElse(m, AnalysisFailed)
    case RequestFailed(m) => OrElse(m, AnalysisFailed)
  }
}
