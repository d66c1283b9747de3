/**
 * The keep-alive cron task: run a trivial piece of Python in the worker's
 * JupyterLab kernel, retrying a bounded number of times, and end the worker
 * process when every attempt fails.
 *
 * Each attempt's outcome is an input (`outcome(k)` is how attempt `k` ends);
 * the pause between attempts is counted, not taken.
 */
module KeepAlive {

  import opened Wrappers
  import opened Strings

  /** How one attempt to run code in the kernel ended. */
  datatype Attempt =
    | Succeeded
    | JupyterFailure(status: Option<int>)   // `JupyterWebError` / `JupyterWebSocketError` and its status
    | OtherFailure                          // any other exception

  /** The task's result: "alive", or the process exit with its message. */
  datatype KeepAliveResult = Alive | Exit(message: string)

  /** What a run did: its result, how many attempts it made, and how many pauses it took. */
  datatype KeepAliveRun = KeepAliveRun(result: KeepAliveResult, attempts: nat, sleeps: nat)

  const AliveText := "alive"

  /** `f"{e.status or 'Unknown'} error from Jupyter"`, or "keep_alive error". */
  function ExitMessage(failure: Attempt): (msg: string)
    requires !failure.Succeeded?
    ensures failure.OtherFailure? ==> msg == "keep_alive error"
    ensures failure.JupyterFailure? && (failure.status.None? || failure.status.value == 0) ==>
      msg == "Unknown error from Jupyter"
    ensures failure.JupyterFailure? && failure.status.Some? && failure.status.value != 0 ==>
      msg == IntToString(failure.status.value) + " error from Jupyter"
  {
    match failure
    case JupyterFailure(status) =>
      (if status.Some? && status.value != 0 then IntToString(status.value) else "Unknown") + " error from Jupyter"
    case OtherFailure => "keep_alive error"
  }

  /** The number of attempts `range(retries)` allows. */
  function AttemptLimit(retries: int): nat
  {
    if retries > 0 then retries else 0
  }

  /**
   * The run from attempt `attempt` on, given that every earlier attempt
   * failed and was followed by a pause.
   */
  function RunFrom(retries: int, outcome: nat -> Attempt, attempt: nat): KeepAliveRun
    requires attempt < retries
    decreases retries - attempt
  {
    if outcome(attempt).Succeeded? then KeepAliveRun(Alive, attempt + 1, attempt)
    else if attempt + 1 == retries then KeepAliveRun(Exit(ExitMessage(outcome(attempt))), attempt + 1, attempt)
    else RunFrom(retries, outcome, attempt + 1)
  }

  /** What `_keep_alive` does for `retries` attempts with the given outcomes. */
  function Run(retries: int, outcome: nat -> Attempt): KeepAliveRun
  {
    if retries <= 0 then KeepAliveRun(Alive, 0, 0) else RunFrom(retries, outcome, 0)
  }

  /**
   * `_keep_alive`: try up to `retries` times; stop at the first success; exit
   * after the last failure with that failure's message; pause `idle` seconds
   * after every other failure.
   */
  method KeepAliveTask(retries: int, idle: int, outcome: nat -> Attempt)
    returns (result: KeepAliveResult, attempts: nat, sleeps: nat, slept: int)
    ensures Run(retries, outcome) == KeepAliveRun(result, attempts, sleeps)
    ensures slept == sleeps * idle
  {
    var exitMessage := "";
    attempts, sleeps, slept := 0, 0, 0;
    var attempt := 0;
    while attempt < retries
      invariant 0 <= attempt && (retries > 0 ==> attempt < retries) && (retries <= 0 ==> attempt == 0)
      invariant attempts == attempt && sleeps == attempt && slept == sleeps * idle
      invariant retries > 0 ==> Run(retries, outcome) == RunFrom(retries, outcome, attempt)
      decreases retries - attempt
    {
      var o := outcome(attempt);
      attempts := attempts + 1;
      if o.Succeeded? {
        return Alive, attempts, sleeps, slept;
      }
      exitMessage := ExitMessage(o);
      if attempt + 1 == retries {
        return Exit(exitMessage), attempts, sleeps, slept;
      }
      sleeps := sleeps + 1;
      slept := slept + idle;
      attempt := attempt + 1;
    }
    result := Alive;
  }

  lemma {:induction false} RunFromProperties(retries: int, outcome: nat -> Attempt, attempt: nat)
    requires attempt < retries
    ensures var run := RunFrom(retries, outcome, attempt);
      && attempt < run.attempts <= retries
      && run.sleeps == run.attempts - 1
      && (forall k :: attempt <= k < run.attempts - 1 ==> !outcome(k).Succeeded?)
      && (run.result == Alive <==> outcome(run.attempts - 1).Succeeded?)
      && (run.result.Exit? ==> run.attempts == retries && run.result.message == ExitMessage(outcome(retries - 1)))
    decreases retries - attempt
  {
    if !outcome(attempt).Succeeded? && attempt + 1 != retries {
      RunFromProperties(retries, outcome, attempt + 1);
    }
  }

  /**
   * The keep-alive run: at most `retries` attempts; every attempt before the
   * last one made failed; with attempts allowed, the result is "alive"
   * exactly when the last attempt made succeeded; an exit comes only after
   * all `retries` attempts failed, with the last failure's message, and
   * always comes when they all fail; there is a pause after every failed
   * attempt but the last one made; no attempts are allowed means "alive".
   */
  lemma KeepAliveProperties(retries: int, outcome: nat -> Attempt)
    ensures var run := Run(retries, outcome);
      && run.attempts <= AttemptLimit(retries)
      && (retries <= 0 ==> run == KeepAliveRun(Alive, 0, 0))
      && (forall k :: 0 <= k < run.attempts - 1 ==> !outcome(k).Succeeded?)
      && (retries > 0 ==> run.attempts >= 1 && (run.result == Alive <==> outcome(run.attempts - 1).Succeeded?))
      && (run.result.Exit? ==>
            run.attempts == retries && run.result.message == ExitMessage(outcome(retries - 1))
            && forall k :: 0 <= k < retries ==> !outcome(k).Succeeded?)
      && (retries > 0 && (forall k :: 0 <= k < retries ==> !outcome(k).Succeeded?) ==> run.result.Exit?)
      && run.sleeps == if run.attempts == 0 then 0 else run.attempts - 1
  {
    if retries > 0 {
      RunFromProperties(retries, outcome, 0);
    }
  }

  /** `make_keep_alive`: the cron task, holding the retry count and the pause it was made with. */
  datatype KeepAliveJob = KeepAliveJob(retries: int, idle: int)

  function MakeKeepAlive(retries: int, idle: int): (job: KeepAliveJob)
    ensures job.retries == retries && job.idle == idle
  {
    KeepAliveJob(retries, idle)
  }

  /** One run of the cron task: `_keep_alive` with the job's own retries and pause. */
  method RunJob(job: KeepAliveJob, outcome: nat -> Attempt)
    returns (result: KeepAliveResult, attempts: nat, sleeps: nat, slept: int)
    ensures Run(job.retries, outcome) == KeepAliveRun(result, attempts, sleeps)
    ensures slept == sleeps * job.idle
  {
    result, attempts, sleeps, slept := KeepAliveTask(job.retries, job.idle, outcome);
  }
}
