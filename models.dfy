/**
 * The `/v1/` API's job models: the response built from a queued job and its
 * result, the notebook error it may carry, and the notebook request.
 *
 * Validating the job's result text as an execution result is a function
 * parameter (`None` where validation fails), and so is JSON encoding.
 * Times are opaque integers.
 */
module Models {

  import opened Wrappers

  /** The error reported by the notebook execution endpoint. */
  datatype NotebookExecutionErrorModel = NotebookExecutionErrorModel(
    traceback: string,
    ename: string,
    evalue: string,
    errMsg: string)

  /** The execution endpoint's result: the executed notebook and, when execution failed, its error. */
  datatype NotebookExecutionResult = NotebookExecutionResult(notebook: string, error: Option<NotebookExecutionErrorModel>)

  /** `NotebookError`. */
  datatype NotebookError = NotebookError(name: string, message: string)

  /** `NotebookError.from_nbexec_error`: the name is the exception name and the message its message. */
  function FromNbexecError(error: NotebookExecutionErrorModel): (e: NotebookError)
    ensures e.name == error.ename && e.message == error.errMsg
  {
    NotebookError(error.ename, error.errMsg)
  }

  /** arq's job states. */
  datatype JobStatus = Deferred | Queued | InProgress | Complete | NotFound

  /** A queued job: its id, when it was queued, its state and its keyword arguments. */
  datatype JobMetadata = JobMetadata(id: string, enqueueTime: int, status: JobStatus, kwargs: map<string, string>)

  /** A finished job's result. */
  datatype JobResult = JobResult(success: bool, result: string, startTime: int, finishTime: int)

  /** `NotebookResponse`. */
  datatype NotebookResponse = NotebookResponse(
    jobId: string,
    kernelName: string,
    enqueueTime: int,
    status: JobStatus,
    selfUrl: string,
    source: Option<string>,
    startTime: Option<int>,
    finishTime: Option<int>,
    success: Option<bool>,
    ipynb: Option<string>,
    ipynbError: Option<NotebookError>)

  /** Why a response cannot be built: the result text is not a valid execution result, or a job argument is missing. */
  datatype ResponseError = ValidationError | KeyError(key: string)

  /** The job's result, when there is one and it succeeded. */
  predicate Succeeded(jobResult: Option<JobResult>)
  {
    jobResult.Some? && jobResult.value.success
  }

  /**
   * `NotebookResponse.from_job_metadata`: validate a successful result
   * first, then read the kernel name and, when the source is asked for, the
   * notebook from the job's arguments. The notebook and its error come only
   * from a successful result; the times and the success flag are present
   * exactly when there is a result.
   */
  function FromJobMetadata(job: JobMetadata, selfUrl: string, includeSource: bool, jobResult: Option<JobResult>,
                           validate: string -> Option<NotebookExecutionResult>)
    : (r: Result<NotebookResponse, ResponseError>)
    ensures Succeeded(jobResult) && validate(jobResult.value.result).None? ==> r == Err(ValidationError)
    ensures r.Ok? <==>
      (Succeeded(jobResult) ==> validate(jobResult.value.result).Some?)
      && "kernel_name" in job.kwargs && (includeSource ==> "ipynb" in job.kwargs)
    ensures r.Err? && r.error != ValidationError ==>
      r.error == if "kernel_name" !in job.kwargs then KeyError("kernel_name") else KeyError("ipynb")
    ensures r.Ok? ==>
      && r.value.jobId == job.id && r.value.enqueueTime == job.enqueueTime && r.value.status == job.status
      && r.value.kernelName == job.kwargs["kernel_name"] && r.value.selfUrl == selfUrl
    ensures r.Ok? ==> r.value.source == if includeSource then Some(job.kwargs["ipynb"]) else None
    ensures r.Ok? ==> (r.value.ipynb.Some? <==> Succeeded(jobResult))
    ensures r.Ok? && Succeeded(jobResult) ==> r.value.ipynb == Some(validate(jobResult.value.result).value.notebook)
    ensures r.Ok? ==>
      (r.value.ipynbError.Some? <==> Succeeded(jobResult) && validate(jobResult.value.result).value.error.Some?)
    ensures r.Ok? && r.value.ipynbError.Some? ==>
      r.value.ipynbError.value == FromNbexecError(validate(jobResult.value.result).value.error.value)
    ensures r.Ok? ==> (r.value.startTime.None? <==> jobResult.None?) && (r.value.finishTime.None? <==> jobResult.None?)
                      && (r.value.success.None? <==> jobResult.None?)
    ensures r.Ok? && jobResult.Some? ==>
      r.value.startTime == Some(jobResult.value.startTime) && r.value.finishTime == Some(jobResult.value.finishTime)
      && r.value.success == Some(jobResult.value.success)
  {
    var executed: Option<NotebookExecutionResult> :-
      if Succeeded(jobResult) then
        var v := validate(jobResult.value.result);
        if v.None? then Err(ValidationError) else Ok(v)
      else Ok(None);
    var ipynb := if executed.Some? then Some(executed.value.notebook) else None;
    var error := if executed.Some? && executed.value.error.Some? then Some(FromNbexecError(executed.value.error.value)) else None;
    if "kernel_name" !in job.kwargs then Err(KeyError("kernel_name"))
    else if includeSource && "ipynb" !in job.kwargs then Err(KeyError("ipynb"))
    else
      Ok(NotebookResponse(
        jobId := job.id,
        kernelName := job.kwargs["kernel_name"],
        enqueueTime := job.enqueueTime,
        status := job.status,
        selfUrl := selfUrl,
        source := if includeSource then Some(job.kwargs["ipynb"]) else None,
        startTime := if jobResult.Some? then Some(jobResult.value.startTime) else None,
        finishTime := if jobResult.Some? then Some(jobResult.value.finishTime) else None,
        success := if jobResult.Some? then Some(jobResult.value.success) else None,
        ipynb := ipynb,
        ipynbError := error))
  }

  /**
   * What every response promises its reader: an error comes only with a
   * notebook, a notebook only with a successful run, and the times and the
   * success flag are all present or all absent.
   */
  predicate Consistent(response: NotebookResponse)
  {
    && (response.ipynbError.Some? ==> response.ipynb.Some?)
    && (response.ipynb.Some? ==> response.success == Some(true))
    && (response.startTime.None? <==> response.success.None?)
    && (response.finishTime.None? <==> response.success.None?)
  }

  /** Every response built from a job is consistent, whatever the job and its result. */
  lemma FromJobMetadataConsistent(job: JobMetadata, selfUrl: string, includeSource: bool, jobResult: Option<JobResult>,
                                  validate: string -> Option<NotebookExecutionResult>)
    ensures var r := FromJobMetadata(job, selfUrl, includeSource, jobResult, validate);
      r.Ok? ==> Consistent(r.value)
  {
  }

  /** A minimal JSON document. */
  datatype JsonValue =
    | JsonNull
    | JsonBool(b: bool)
    | JsonNumber(n: int)
    | JsonString(s: string)
    | JsonArray(items: seq<JsonValue>)
    | JsonObject(fields: map<string, JsonValue>)

  /** The notebook of a request: JSON text, or an object already parsed. */
  datatype Ipynb = IpynbText(text: string) | IpynbObject(fields: map<string, JsonValue>)

  /** `PostNotebookRequest`. */
  datatype PostNotebookRequest = PostNotebookRequest(ipynb: Ipynb, kernelName: string, enableRetry: bool)

  const DefaultKernelName := "LSST"

  /** A request as the body gives it: the kernel is "LSST" and retries are on unless the body says otherwise. */
  function NewPostNotebookRequest(ipynb: Ipynb, kernelName: Option<string>, enableRetry: Option<bool>)
    : (request: PostNotebookRequest)
    ensures request.ipynb == ipynb
    ensures kernelName.None? ==> request.kernelName == DefaultKernelName
    ensures kernelName.Some? ==> request.kernelName == kernelName.value
    ensures enableRetry.None? ==> request.enableRetry
    ensures enableRetry.Some? ==> request.enableRetry == enableRetry.value
  {
    PostNotebookRequest(
      ipynb,
      if kernelName.Some? then kernelName.value else DefaultKernelName,
      if enableRetry.Some? then enableRetry.value else true)
  }

  /** `get_ipynb_as_str`: text is passed on as it is; an object is encoded as JSON. */
  function GetIpynbAsStr(request: PostNotebookRequest, dumps: map<string, JsonValue> -> string): (text: string)
    ensures request.ipynb.IpynbText? ==> text == request.ipynb.text
    ensures request.ipynb.IpynbObject? ==> text == dumps(request.ipynb.fields)
  {
    match request.ipynb
    case IpynbText(t) => t
    case IpynbObject(fields) => dumps(fields)
  }

  /**
   * Whichever form the notebook came in, its text decodes to the same
   * document, given a JSON decoder that inverts the encoder.
   */
  lemma IpynbFormsAgree(fields: map<string, JsonValue>, text: string, kernelName: string, enableRetry: bool,
                        dumps: map<string, JsonValue> -> string, loads: string -> Option<JsonValue>)
    requires loads(dumps(fields)) == Some(JsonObject(fields))
    requires loads(text) == Some(JsonObject(fields))
    ensures loads(GetIpynbAsStr(PostNotebookRequest(IpynbObject(fields), kernelName, enableRetry), dumps))
         == loads(GetIpynbAsStr(PostNotebookRequest(IpynbText(text), kernelName, enableRetry), dumps))
  {
  }
}
