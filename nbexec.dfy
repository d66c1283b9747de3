/**
 * The `nbexec` worker task: how the outcome of one notebook execution becomes
 * the task's result, a retry, a task error or the end of the worker process.
 *
 * The execution itself (a request to the JupyterLab pod, bounded by an
 * optional deadline) is an input: the outcome it produced. The task's answer
 * is a tagged value; a worker exit (`sys.exit`) is the `WorkerExit` value.
 */
module Nbexec {

  import opened Wrappers
  import opened Strings
  import opened Slack
  import opened Exceptions

  /**
   * The `status` attribute of a Nublado client exception: absent, present
   * but `None` (a failure with no HTTP response), or an HTTP status.
   */
  datatype StatusAttr = NoStatusAttr | StatusNone | Status(code: int)

  /** How the awaited execution ended. */
  datatype RunOutcome =
    | Finished(resultJson: string)                       // the serialised execution result
    | TimedOut(text: string)                             // `TimeoutError`
    | ClientFailure(status: StatusAttr, text: string)    // `NubladoClientSlackException`
    | OtherFailure(exceptionName: string)                // anything else: not caught

  /** The task's parameters that the classification reads. */
  datatype NbexecRequest = NbexecRequest(ipynbIsJson: bool, enableRetry: bool, timeout: Option<int>)

  /** The worker context keys the task reads. */
  datatype JobContext = JobContext(
    jobId: Option<string>,
    jobTry: Option<int>,
    hasLogger: bool,
    hasJupyterClient: bool,
    hasSlack: bool,
    hasMessageFactory: bool)

  /** What the task does with the job. */
  datatype NbexecResult =
    | Completed(resultJson: string)
    | TimeoutFailure(message: string)    // `NbexecTaskTimeoutError`
    | TaskFailure(message: string)       // `NbexecTaskError`
    | RetryLater(deferSeconds: int)      // arq `Retry(defer=...)`
    | WorkerExit(exitMessage: string)    // `sys.exit(...)`
    | Raised(exceptionName: string)      // an exception the task does not handle

  const ClientErrorExit := "400 class error from Jupyter"

  /**
   * The deadline handed to `asyncio.wait_for`, in seconds: none when no
   * timeout is given, and none either for a zero timeout (a zero `timedelta`
   * is falsy).
   */
  function Deadline(timeout: Option<int>): (deadline: Option<int>)
    ensures deadline.None? <==> timeout.None? || timeout.value == 0
    ensures deadline.Some? ==> deadline.value == timeout.value
  {
    if timeout.Some? && timeout.value != 0 then timeout else None
  }

  /** The task reaches its `try` block: the context has its logger and client and the notebook is JSON. */
  predicate Reaches(req: NbexecRequest, ctx: JobContext)
  {
    ctx.hasLogger && ctx.hasJupyterClient && req.ipynbIsJson
  }

  /** A status in the 4xx class. */
  predicate IsClientErrorStatus(status: StatusAttr)
  {
    status.Status? && 400 <= status.code < 500
  }

  /** A client failure that is not in the 4xx class: a retry, or a terminal task error. */
  function AfterNonClientError(req: NbexecRequest, ctx: JobContext, text: string): (r: NbexecResult)
    ensures req.enableRetry && ctx.jobTry.Some? <==> r.RetryLater?
    ensures r.RetryLater? ==> r.deferSeconds == ctx.jobTry.value * 5
    ensures !req.enableRetry <==> r.TaskFailure?
    ensures r.TaskFailure? ==> r.message == "nbexec task error\n\n" + text
    ensures req.enableRetry && ctx.jobTry.None? <==> r == Raised("KeyError")
  {
    if req.enableRetry then
      if ctx.jobTry.Some? then RetryLater(ctx.jobTry.value * 5) else Raised("KeyError")
    else TaskFailure(FromException(NbexecTaskError, text))
  }

  /** The steps before the `try` block: missing context keys and a notebook that is not JSON. */
  function BeforeRun(req: NbexecRequest, ctx: JobContext): (r: NbexecResult)
    requires !Reaches(req, ctx)
  {
    if !ctx.hasLogger || !ctx.hasJupyterClient then Raised("KeyError") else Raised("JSONDecodeError")
  }

  /**
   * The task as written: the 4xx test compares the status attribute with 400
   * even when it is `None`, which raises `TypeError`.
   */
  function NbexecAsWritten(req: NbexecRequest, ctx: JobContext, outcome: RunOutcome): (r: NbexecResult)
    ensures Reaches(req, ctx) && outcome.ClientFailure? && outcome.status.StatusNone? ==> r == Raised("TypeError")
  {
    if !Reaches(req, ctx) then BeforeRun(req, ctx)
    else match outcome
      case Finished(json) => Completed(json)
      case TimedOut(text) => TimeoutFailure(FromException(NbexecTaskTimeoutError, text))
      case ClientFailure(status, text) =>
        if status.StatusNone? then Raised("TypeError")
        else if IsClientErrorStatus(status) then WorkerExit(ClientErrorExit)
        else AfterNonClientError(req, ctx, text)
      case OtherFailure(name) => Raised(name)
  }

  /**
   * An input on which the code as written raises `TypeError`: a client error
   * whose status is `None`, with retries enabled. The corrected task retries
   * it after 5 seconds instead.
   */
  lemma StatusNoneRaisesAsWritten(text: string)
    ensures NbexecAsWritten(NbexecRequest(true, true, None),
                            JobContext(Some("job"), Some(1), true, true, false, false),
                            ClientFailure(StatusNone, text)) == Raised("TypeError")
    ensures Nbexec(NbexecRequest(true, true, None),
                   JobContext(Some("job"), Some(1), true, true, false, false),
                   ClientFailure(StatusNone, text)) == RetryLater(5)
  {
  }

  /**
   * The task with a status of `None` treated as outside the 4xx class; on
   * every other input it agrees with the code as written.
   */
  function Nbexec(req: NbexecRequest, ctx: JobContext, outcome: RunOutcome): (r: NbexecResult)
    // success: the result is passed on, whatever it says about the notebook
    ensures r.Completed? <==> Reaches(req, ctx) && outcome.Finished?
    ensures r.Completed? ==> r.resultJson == outcome.resultJson
    // a timeout is never retried
    ensures r.TimeoutFailure? <==> Reaches(req, ctx) && outcome.TimedOut?
    ensures r.TimeoutFailure? ==> r.message == "nbexec timeout error\n\n" + outcome.text
    // a 4xx status ends the worker, whatever enable_retry says
    ensures r.WorkerExit? <==> Reaches(req, ctx) && outcome.ClientFailure? && IsClientErrorStatus(outcome.status)
    ensures r.WorkerExit? ==> r.exitMessage == ClientErrorExit
    // any other client failure: a retry after job_try * 5 seconds, or a task error
    ensures r.RetryLater? <==>
      Reaches(req, ctx) && outcome.ClientFailure? && !IsClientErrorStatus(outcome.status)
      && req.enableRetry && ctx.jobTry.Some?
    ensures r.RetryLater? ==> r.deferSeconds == ctx.jobTry.value * 5
    ensures r.TaskFailure? <==>
      Reaches(req, ctx) && outcome.ClientFailure? && !IsClientErrorStatus(outcome.status) && !req.enableRetry
    ensures r.TaskFailure? ==> r.message == "nbexec task error\n\n" + outcome.text
    // other exceptions are not caught
    ensures Reaches(req, ctx) && outcome.OtherFailure? ==> r == Raised(outcome.exceptionName)
  {
    if !Reaches(req, ctx) then BeforeRun(req, ctx)
    else match outcome
      case Finished(json) => Completed(json)
      case TimedOut(text) => TimeoutFailure(FromException(NbexecTaskTimeoutError, text))
      case ClientFailure(status, text) =>
        if IsClientErrorStatus(status) then WorkerExit(ClientErrorExit)
        else AfterNonClientError(req, ctx, text)
      case OtherFailure(name) => Raised(name)
  }

  /** The corrected task differs from the code as written only on a status of `None`. */
  lemma NbexecAgreesExceptStatusNone(req: NbexecRequest, ctx: JobContext, outcome: RunOutcome)
    requires !(outcome.ClientFailure? && outcome.status.StatusNone?)
    ensures Nbexec(req, ctx, outcome) == NbexecAsWritten(req, ctx, outcome)
  {
  }

  // ---------------------------------------------------------------------------
  // Slack alerts
  // ---------------------------------------------------------------------------

  /** The two alerts the task may post: the error report and the shutdown notice. */
  datatype Alert = ErrorReport | ShutdownNotice

  /**
   * The alerts posted for an outcome: on a client failure, the error report,
   * followed by the shutdown notice for a 4xx status, and nothing at all
   * unless the context has both the Slack client and the message factory.
   */
  function Alerts(req: NbexecRequest, ctx: JobContext, outcome: RunOutcome): (alerts: seq<Alert>)
    ensures |alerts| > 0 ==> ctx.hasSlack && ctx.hasMessageFactory && outcome.ClientFailure?
    ensures ctx.hasSlack && ctx.hasMessageFactory && Reaches(req, ctx) && outcome.ClientFailure? ==>
      |alerts| > 0 && alerts[0] == ErrorReport
    ensures ShutdownNotice in alerts <==>
      ctx.hasSlack && ctx.hasMessageFactory && Nbexec(req, ctx, outcome).WorkerExit?
  {
    if Reaches(req, ctx) && outcome.ClientFailure? && ctx.hasSlack && ctx.hasMessageFactory then
      [ErrorReport] + (if IsClientErrorStatus(outcome.status) then [ShutdownNotice] else [])
    else []
  }

  /** The "Job ID" and "Attempt" fields every alert ends with. */
  function JobFields(ctx: JobContext): (fields: seq<SlackTextField>)
    ensures |fields| == 2 && fields[0].heading == "Job ID" && fields[1].heading == "Attempt"
    ensures fields[0].text == if ctx.jobId.Some? then ctx.jobId.value else "unknown"
    ensures fields[1].text == if ctx.jobTry.Some? then IntToString(ctx.jobTry.value) else "unknown"
  {
    [SlackTextField("Job ID", if ctx.jobId.Some? then ctx.jobId.value else "unknown"),
     SlackTextField("Attempt", if ctx.jobTry.Some? then IntToString(ctx.jobTry.value) else "unknown")]
  }

  /** Append the job's "Job ID" and "Attempt" fields to an alert, after the fields it already has. */
  method AppendJobFields(message: SlackMessage, ctx: JobContext)
    modifies message
    ensures message.fields == old(message.fields) + JobFields(ctx)
    ensures message.message == old(message.message)
  {
    message.AppendField(SlackTextField("Job ID", if ctx.jobId.Some? then ctx.jobId.value else "unknown"));
    message.AppendField(SlackTextField("Attempt", if ctx.jobTry.Some? then IntToString(ctx.jobTry.value) else "unknown"));
  }
}
