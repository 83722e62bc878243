/** job.go and the decision part of dispatcher.go: the options of a job, what a tick does with a due
    row, and how one attempt is judged. */
module Jobs {
  import opened Basics
  import opened Schedules

  datatype MissedFirePolicy = RunOnce | Skip | RunAll

  /** Durations are in nanoseconds. */
  datatype RetryPolicy = RetryPolicy(maxAttempts: int, initialBackoff: int, maxBackoff: int, multiplier: real)

  datatype JobOptions = JobOptions(leaderOnly: bool, missedFire: MissedFirePolicy, retry: RetryPolicy)

  /** A registered job; its handler is whatever the replies of a run say. */
  datatype Job = Job(name: string, schedule: Schedule, options: JobOptions)

  /** What maybeDispatch does with one due row. */
  datatype Decision =
    | Ignore                  // no claim, no execution
    | Advance(target: Time)   // claim without executing (the Skip policy)
    | Replay(target: Time)    // run the missed window, then claim
    | Launch(target: Time)    // claim and, if won, execute once

  /** `leader` is the node's cached leadership, `None` when no leader is configured; `next` is the
      first fire after `now`, `None` when the schedule has none. */
  function Classify(opts: JobOptions, leader: Option<bool>, tick: int, fire: Time, now: Time, next: Option<Time>)
    : Decision
  {
    if opts.leaderOnly && leader == Some(false) then Ignore
    else if next.None? then Ignore
    else
      var missed := now - fire > 3 * tick;
      if missed && opts.missedFire == Skip then Advance(next.value)
      else if missed && opts.missedFire == RunAll then
        if leader == Some(false) then Ignore else Replay(next.value)
      else Launch(next.value)
  }

  // ----- One attempt ---------------------------------------------------------------------------

  datatype Outcome = Succeeded | Failed | DeadLetter

  /** A failed attempt below the budget asks for a retry and keeps the attempt counter; any other
      attempt ends the streak and forgets the counter. */
  predicate AsksRetry(failed: bool, attempt: int, maxAttempts: int) {
    failed && attempt < maxAttempts
  }

  function OutcomeOf(failed: bool, attempt: int, maxAttempts: int): Outcome {
    if !failed then Succeeded
    else if attempt < maxAttempts then Failed
    else DeadLetter
  }

  /** The counter after an attempt that starts from counter `c`. */
  function NextCounter(c: nat, failed: bool, max: int): nat {
    if AsksRetry(failed, c + 1, max) then c + 1 else 0
  }

  /** The number of attempts a streak may take: budgets below 1 behave like 1. */
  function Budget(maxAttempts: int): int { Max(1, maxAttempts) }

  const MAX_CATCHUP_INSTANTS: nat := 256
}
