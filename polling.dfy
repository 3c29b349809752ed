/** The polling loop of `server/brightdata.js` (`waitForResults`), with the provider's
    HTTP endpoints and the clock as oracles. A `Job` says what the provider answers to the
    k-th progress check of one snapshot and how long that exchange takes, and what the
    snapshot download returns and how long it takes; the loop's own 3-second sleep is the
    only other thing that advances the clock. */
module Polling {
  import opened Wrappers
  import opened Records

  /** The pause between two progress checks, in milliseconds. */
  const SleepMs: nat := 3000

  /** The default budget of `waitForResults`, in milliseconds. */
  const DefaultMaxWaitMs: int := 120000

  /** One HTTP exchange: the decoded body of a 2xx answer, or the status of any other. */
  datatype Reply<T> = Ok(body: T) | HttpError(status: int)

  /** The oracle for one snapshot: `progress(k)` is the answer to the k-th progress check
      (its `status` field), `progressMs(k)` how long that check takes; `snapshot` and
      `snapshotMs` the same for the final download. */
  datatype Job = Job(
    progress: nat -> Reply<string>,
    progressMs: nat -> nat,
    snapshot: Reply<Payload>,
    snapshotMs: nat)

  /** The errors a scrape throws: the trigger call, a progress check or the download
      answered with a non-2xx status, the provider reported the job failed, or the
      budget ran out. */
  datatype ScrapeError =
    | TriggerFailed(status: int)
    | ProgressCheckFailed(status: int)
    | SnapshotFetchFailed(status: int)
    | ScrapeFailed
    | TimedOut

  /** A progress answer that sends the loop round again: any status but `ready` and
      `failed` (`pending`, `running`, or anything else the provider says). */
  predicate KeepsPolling(reply: Reply<string>) {
    reply.Ok? && reply.body != "ready" && reply.body != "failed"
  }

  /** The clock reading at the k-th test of the loop condition, when the loop was entered
      at `start` and every earlier check kept it polling. */
  function CheckTime(job: Job, start: int, k: nat): (t: int)
    ensures t >= start + k * SleepMs
  {
    if k == 0 then start else CheckTime(job, start, k - 1) + job.progressMs(k - 1) + SleepMs
  }

  /** What `waitForResults` reports after `polls` progress checks of `job`, entered at
      clock `start` with budget `maxWaitMs`: every check was made inside the budget and
      every check but the last kept polling; the outcome is the download after a `ready`
      answer, `ScrapeFailed` after a `failed` one, the status of the first non-2xx answer,
      or a time-out when the budget is spent at a loop check that follows only pending
      answers. */
  predicate Polled(job: Job, start: int, maxWaitMs: int, r: Result<Payload, ScrapeError>, polls: nat) {
    && (forall k :: 0 <= k < polls ==> CheckTime(job, start, k) - start < maxWaitMs)
    && (forall k :: 0 <= k < polls - 1 ==> KeepsPolling(job.progress(k)))
    && (r.Success? <==> polls > 0 && job.progress(polls - 1) == Ok("ready") && job.snapshot.Ok?)
    && (r.Success? ==> r.value == job.snapshot.body)
    && (r == Failure(ScrapeFailed) <==> polls > 0 && job.progress(polls - 1) == Ok("failed"))
    && ((r.Failure? && r.error.SnapshotFetchFailed?) <==>
          polls > 0 && job.progress(polls - 1) == Ok("ready") && job.snapshot.HttpError?)
    && (r.Failure? && r.error.SnapshotFetchFailed? ==> r.error.status == job.snapshot.status)
    && ((r.Failure? && r.error.ProgressCheckFailed?) <==> polls > 0 && job.progress(polls - 1).HttpError?)
    && (r.Failure? && r.error.ProgressCheckFailed? && polls > 0 ==> r.error.status == job.progress(polls - 1).status)
    && (r == Failure(TimedOut) <==>
          (polls == 0 || KeepsPolling(job.progress(polls - 1))) && CheckTime(job, start, polls) - start >= maxWaitMs)
    && !(r.Failure? && r.error.TriggerFailed?)
  }

  /** `waitForResults(snapshotId, maxWaitMs)` entered at clock `start` (the budget is
      measured from entry, which is after the trigger call has returned). Returns the
      outcome, the number of progress checks made and the clock on return. */
  method WaitForResults(job: Job, start: int, maxWaitMs: int) returns (r: Result<Payload, ScrapeError>, polls: nat, finish: int)
    ensures Polled(job, start, maxWaitMs, r, polls)
    // with no budget at all the provider is never asked
    ensures maxWaitMs <= 0 ==> polls == 0 && r == Failure(TimedOut) && finish == start
    ensures polls == 0 || (polls - 1) * SleepMs < maxWaitMs
    ensures finish >= start
  {
    var now := start;
    polls := 0;
    while now - start < maxWaitMs
      invariant now == CheckTime(job, start, polls)
      invariant forall k :: 0 <= k < polls ==> CheckTime(job, start, k) - start < maxWaitMs
      invariant forall k :: 0 <= k < polls ==> KeepsPolling(job.progress(k))
      decreases maxWaitMs - (now - start)
    {
      var progress := job.progress(polls);
      now := now + job.progressMs(polls);
      polls := polls + 1;
      match progress {
        case HttpError(status) =>
          return Failure(ProgressCheckFailed(status)), polls, now;
        case Ok(status) =>
          if status == "ready" {
            now := now + job.snapshotMs;
            match job.snapshot {
              case HttpError(s) => return Failure(SnapshotFetchFailed(s)), polls, now;
              case Ok(payload) => return Success(payload), polls, now;
            }
          }
          if status == "failed" {
            return Failure(ScrapeFailed), polls, now;
          }
      }
      now := now + SleepMs;
    }
    r, finish := Failure(TimedOut), now;
  }

  /** The job alone decides the report: two runs over the same job, clock and budget
      make the same number of checks and return the same outcome. */
  lemma PolledIsDeterministic(job: Job, start: int, maxWaitMs: int,
                              r1: Result<Payload, ScrapeError>, polls1: nat,
                              r2: Result<Payload, ScrapeError>, polls2: nat)
    requires Polled(job, start, maxWaitMs, r1, polls1) && Polled(job, start, maxWaitMs, r2, polls2)
    ensures polls1 == polls2 && r1 == r2
  {
    if polls1 < polls2 {
      SettledOrSpent(job, start, maxWaitMs, r1, polls1);
    } else if polls2 < polls1 {
      SettledOrSpent(job, start, maxWaitMs, r2, polls2);
    }
  }

  /** Every report ends the run: either the last check settled the job, or the budget was
      spent at the next loop check. */
  lemma SettledOrSpent(job: Job, start: int, maxWaitMs: int, r: Result<Payload, ScrapeError>, polls: nat)
    requires Polled(job, start, maxWaitMs, r, polls)
    ensures (polls > 0 && !KeepsPolling(job.progress(polls - 1)))
            || CheckTime(job, start, polls) - start >= maxWaitMs
  {
    if r.Failure? && r.error.ProgressCheckFailed? {
    } else if r.Failure? && r.error.SnapshotFetchFailed? {
    }
  }
}
