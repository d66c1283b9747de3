# noteburst worker, modelled in Dafny

noteburst runs Jupyter notebooks for other services of the Rubin Science
Platform. An arq **worker** process does the running. At start-up it claims a
bot user identity from a fixed pool, guarded by a Redis lock keyed by the
identity's uid. It then spawns a JupyterLab pod for that identity. If the
spawn fails with one of a known set of errors, it moves on to the next
identity in the pool. After start-up the worker runs three kinds of task:
`nbexec` notebook executions, a keep-alive cron task that keeps the pod from
being culled, and `ping`.

This project models that worker core and the pure helpers around it, and
proves properties of the model:

- the identity manager and its lock service (`identity.dfy`);
- the worker's start-up spawn loop, its shut-down and its cron schedule (`worker.dfy`);
- how `nbexec` classifies the outcome of an execution (`nbexec.dfy`);
- the keep-alive retry loop (`keepalive.dfy`) and `ping` (`ping.dfy`);
- the worker configuration and the Redis settings (`config.dfy`, `base.dfy`);
- the JupyterHub/JupyterLab client's pure and loop logic (`jupyterlab.dfy`);
- the two image services' clients (`labcontroller.dfy`, `cachemachine.dfy`);
- the exception messages (`exceptions.dfy`);
- the `/v1/` job response models (`models.dfy`);
- Python's string operations as the code uses them (`strings.dfy`).

What the environment decides is given to the model as an input:

- which lock keys are held;
- how each spawn, each keep-alive attempt and each execution ends;
- the HTTP statuses, cookies and event-stream lines of the replies;
- the kernel's messages;
- JSON decoding and encoding.

State that the source updates in place becomes a class:

- the lock service, an identity claim and the identity manager;
- the worker context;
- a Slack message;
- the JupyterLab client's XSRF tokens.

The loops of the source are methods with loop invariants. These loops are
proved equal to a recursive specification function, and the properties are
proved about that function:

- the identity scan;
- the keep-alive loop;
- `run_python`;
- the spawn-progress reconnect loop;
- the login redirect loops.

The spawn loop of start-up has no such function. Its invariants state
directly what every attempt so far has done: the identities it used, in
strictly increasing pool order, and the error each retried attempt failed
with.

Start-up calls `get_next_identity` after a retried spawn failure
(src/noteburst/worker/main.py:129), but `IdentityManager`
(src/noteburst/worker/identity.py:68-166) defines no such method. As written,
the first retried failure would therefore raise `AttributeError`. The model
supplies the behaviour the loop needs: release the previous claim, then scan
the pool strictly after its position. The spawn loop therefore never returns
to an identity it has already tried, and it ends because the pool is finite.

## Model

| member | source | states |
|---|---|---|
| Identity.LockManager.Lock | src/noteburst/worker/identity.py:151-152 | a non-blocking lock succeeds exactly when nobody holds the uid; afterwards the uid is held |
| Identity.IdentityClaim.IsValid | src/noteburst/worker/identity.py:56-58 | a claim is valid exactly when its lock is; a new claim is valid and a released one is not (the constructor's and Release's contracts) |
| Identity.IdentityClaim.Release | src/noteburst/worker/identity.py:60-61 | releasing a claim gives its uid back to the lock service if the lock was still valid; the claim is invalid afterwards |
| Identity.FirstFree | src/noteburst/worker/identity.py:147-157 | the first pool index at or after a position whose uid is free; every identity before it is locked; None exactly when all are locked |
| Identity.IdentityManager.FromConfig | src/noteburst/worker/identity.py:96-119 | a new manager over a fresh lock client with the pool in the configuration file's order and no claim |
| Identity.IdentityManager.Close | src/noteburst/worker/identity.py:121-128 | the current claim, if any, is released and cleared; the lock client is always destroyed; no claim is held afterwards |
| Identity.IdentityManager.GetIdentity | src/noteburst/worker/identity.py:130-166 | a valid current claim is returned unchanged with no lock attempt; otherwise it is dropped and the first free identity in pool order is claimed, with its username and uid, and becomes current; when none is free, IdentityClaimError with no current claim and no lock taken |
| Identity.IdentityManager.Scan | src/noteburst/worker/identity.py:147-166 | the loop over the pool claims exactly the first free identity from a position, or fails with the "none available" error and changes nothing |
| Identity.IdentityManager.GetNextIdentity | src/noteburst/worker/main.py:129 | the previous claim is released and the first free identity strictly after it in the pool is claimed, or the claim error is raised |
| Ping.PingReply | src/noteburst/worker/functions/ping.py:12-20 | the reply is one of three strings: "Failed to query identity" exactly when get_identity raised, and otherwise "valid identity lock" or "invalid identity lock" according to the claim's validity |
| Ping.PingWorker | src/noteburst/worker/functions/ping.py:8-20 | ping acts only through get_identity; since get_identity never returns an invalid claim, the "invalid identity lock" reply cannot occur |
| Config.IsImageRefSet | src/noteburst/config/worker.py:181-195 | the validator rejects a reference selector without a reference and otherwise returns the configuration unchanged |
| Config.DefaultsValid | src/noteburst/config/worker.py:144-174 | the default configuration passes the validator |
| Config.ParseScopesOfJoin | src/noteburst/config/worker.py:197-202 | scopes written comma-separated, without blanks, parse back to the same list in order |
| Config.ParseScopes | src/noteburst/config/worker.py:202 | no parsed scope contains a comma; there are never more scopes than comma-separated segments; an empty setting gives no scope |
| Config.ParsedWorkerTokenScopes | src/noteburst/config/worker.py:197-202 | the worker token scopes, parsed: none contains a comma, and an empty setting gives none |
| Config.DefaultScopes | src/noteburst/config/worker.py:198-202 | the default "exec:notebook" (line 144) parses to ["exec:notebook"] |
| Config.BlankSegmentGivesEmptyScope | src/noteburst/config/worker.py:202 | the emptiness filter tests the unstripped segment, so a blank segment gives an empty scope |
| Config.EmptySegmentDropped | src/noteburst/config/worker.py:202 | an empty segment is dropped |
| Config.NubladoImageOf | src/noteburst/config/worker.py:204-219 | recommended maps to the RECOMMENDED class, weekly to LATEST_WEEKLY, reference to by-reference with the configured reference (each an iff) |
| Config.AioredlockRedisConfig | src/noteburst/config/worker.py:176-179 | the lock configuration is the one-element list holding the lock URL |
| BaseConfig.LStripSlashes | src/noteburst/config/base.py:43 | strips exactly the leading "/" characters: the result is a suffix with no leading "/" and everything removed is "/" |
| BaseConfig.ArqRedisSettings | src/noteburst/config/base.py:36-47 | host is the URL host or "localhost"; port is the URL port or 6379; database is the integer the path spells after its leading "/" are stripped, or 0 for an empty path; the error is raised exactly when the path does not spell an integer |
| BaseConfig.DatabaseFromPath | src/noteburst/config/base.py:42-46 | a path of slashes followed by a number gives that number as database |
| BaseConfig.DefaultSettings | src/noteburst/config/base.py:29-47 | the default URL "redis://localhost:6379/1" gives localhost, 6379, database 1 |
| BaseConfig.SlashOnlyPathIsError | src/noteburst/config/base.py:42-46 | the path "/" is truthy but strips to "", which is not an integer: an error |
| BaseConfig.NonNumericPathIsError | src/noteburst/config/base.py:43-44 | a path that is not a number is an error |
| Exceptions.TaskName | src/noteburst/exceptions.py:44-60 | the task name is "unknown" exactly for the base class and "nbexec" exactly for the two nbexec classes, the timeout class inheriting it |
| Exceptions.FromException | src/noteburst/exceptions.py:41-68 | "unknown task error", "nbexec task error" or "nbexec timeout error", a blank line, then the exception's text |
| Exceptions.MessagePrefixNamesTask | src/noteburst/exceptions.py:44-68 | every message starts with the class's task name and a space: "unknown" for the base class, "nbexec" for both nbexec classes |
| Exceptions.FromExceptionInjective | src/noteburst/exceptions.py:52-68 | equal messages come from the same prefix and the same exception text: the message determines the wrapped text |
| Exceptions.NewWorkerError | src/noteburst/exceptions.py:28-38 | tags and contexts are set exactly when they are given and not empty |
| Exceptions.JobErrorToSlack | src/noteburst/exceptions.py:97-102 | the parent's message with exactly one "Job ID" field appended after the parent's fields |
| Nbexec.Deadline | src/noteburst/worker/functions/nbexec.py:64-67 | no deadline when the timeout is None or zero; otherwise the timeout |
| Nbexec.AfterNonClientError | src/noteburst/worker/functions/nbexec.py:118-122 | with retries enabled, Retry after job_try*5 seconds (KeyError without job_try); otherwise NbexecTaskError with its message |
| Nbexec.NbexecAsWritten | src/noteburst/worker/functions/nbexec.py:58-124 | the task as written: a client error whose status is None raises TypeError at the 4xx comparison |
| Nbexec.StatusNoneRaisesAsWritten | src/noteburst/worker/functions/nbexec.py:92 | for a status of None with retries on, the code as written raises TypeError; the corrected task retries after 5 seconds |
| Nbexec.Nbexec | src/noteburst/worker/functions/nbexec.py:58-124 | success passes the serialised result on; a timeout always becomes NbexecTaskTimeoutError, never a retry; a 400..499 status always exits the worker with "400 class error from Jupyter"; any other client error retries after job_try*5 when retries are enabled, and is NbexecTaskError otherwise; any other exception propagates (each an iff) |
| Nbexec.NbexecAgreesExceptStatusNone | src/noteburst/worker/functions/nbexec.py:92 | the corrected task differs from the code as written only on a status of None |
| Nbexec.Alerts | src/noteburst/worker/functions/nbexec.py:76-117 | alerts are posted only when both "slack" and "slack_message_factory" are in the context, and only for client errors; the shutdown notice is posted exactly when the worker exits |
| Nbexec.JobFields | src/noteburst/worker/functions/nbexec.py:79-114 | each alert ends with "Job ID" (the job id or "unknown") and "Attempt" (job_try or "unknown") |
| Nbexec.AppendJobFields | src/noteburst/worker/functions/nbexec.py:79-89 | the two job fields are appended after the fields the message already had |
| KeepAlive.ExitMessage | src/noteburst/worker/functions/keepalive.py:50-62 | a Jupyter web or websocket error gives "<status or Unknown> error from Jupyter"; any other exception gives "keep_alive error" |
| KeepAlive.KeepAliveTask | src/noteburst/worker/functions/keepalive.py:17-68 | the loop's result, attempt count and pause count are those of the run specification; it pauses idle seconds per pause |
| KeepAlive.RunFromProperties | src/noteburst/worker/functions/keepalive.py:43-66 | from any attempt on: at most retries attempts, a pause after each failure but the last attempt, and an exit only after the last allowed attempt with that attempt's message |
| KeepAlive.KeepAliveProperties | src/noteburst/worker/functions/keepalive.py:43-68 | at most retries attempts; the first success stops and gives "alive"; all retries failing exits with the last failure's message; pauses only between attempts; retries = 0 makes no attempt and gives "alive" |
| KeepAlive.MakeKeepAlive | src/noteburst/worker/functions/keepalive.py:71-90 | the cron task keeps the retries and idle it was made with |
| KeepAlive.RunJob | src/noteburst/worker/functions/keepalive.py:87-88 | each run of the cron task is the keep-alive loop with those same retries and idle |
| Worker.StartupImage | src/noteburst/worker/main.py:81-92 | start-up asks for the image by reference, the latest weekly, or the default recommended class; it is the image nublado_image names |
| Worker.CreateMessage | src/noteburst/worker/main.py:163-191 | the Slack message carries the username, the image selector and the reference ("N/A" unless the selector is reference) |
| Worker.OpenContext | src/noteburst/worker/main.py:70-96 | the context gains exactly the keys "http_client" and "identity_manager", and "slack" when a webhook is configured; the identity manager is fresh, over the pool, with no claim yet; nothing else in the context changes |
| Worker.NextIdentity | src/noteburst/worker/main.py:126-127 | after a retried error the identity is released and the next claim, if any, is for a strictly later pool position; otherwise the "none available" error propagates and no identity is current |
| Worker.ClaimAndSpawn | src/noteburst/worker/main.py:95-127 | the first attempt uses the first free identity; a failed first claim propagates before any spawn; later attempts use strictly later positions |
| Worker.SpawnLoop | src/noteburst/worker/main.py:100-146 | spawns with strictly later pool identities only; each retried attempt failed with one of the six listed kinds; success is a pod for the current, valid identity; an unlisted error propagates; the loop leaves only after a success, so the "no pod" worker error is never raised |
| Worker.Startup | src/noteburst/worker/main.py:47-198 | the first spawn uses the first free identity; a failed first claim propagates before any spawn; the context gains "http_client", "identity_manager" and, with a webhook, "slack" whatever happens; on success it also gains "jupyter_client" and "logger", and with Slack "slack_message_factory" and the start-up post; on failure it gains nothing more |
| Worker.RecordPod | src/noteburst/worker/main.py:148-198 | the context gains exactly "jupyter_client" (the pod's client) and "logger", and with Slack "slack_message_factory" for the pod's user; "Noteburst worker started" is posted exactly with Slack |
| Worker.CloseManager | src/noteburst/worker/main.py:229-235 | the third step: with an identity manager in the context, it is closed, its claim released and its lock client destroyed |
| Worker.PostShutDown | src/noteburst/worker/main.py:251-257 | "Noteburst worker shut down complete." is posted exactly when the context has both "slack" and "slack_message_factory" |
| Worker.Shutdown | src/noteburst/worker/main.py:201-257 | all five steps are attempted, in the source's order, with the identity manager closed third; each step completes exactly when its own context entry was present and its own call does not raise, so no failure skips a later step; the identity manager is closed and its claim released; the shut-down message is posted exactly when both Slack keys are present; the context keeps its keys and entries |
| Worker.CronJobs | src/noteburst/worker/main.py:262-272 | fast registers one cron at seconds {0,30}, normal one at minutes {0,15,30,45}, and the other settings none |
| LabController.UnderscoreToDash | src/noteburst/jupyterclient/labcontroller.py:64-66 | every "_" becomes "-", every other character is kept, and the length is unchanged |
| LabController.UnderscoreToDashIdempotent | src/noteburst/jupyterclient/labcontroller.py:64-66 | converting twice is converting once; a name without "_" is unchanged |
| LabController.FindByReference | src/noteburst/jupyterclient/labcontroller.py:111-115 | the first index with an equal reference, None exactly when there is none |
| LabController.GetByReference | src/noteburst/jupyterclient/labcontroller.py:98-115 | the first image in `all` with the reference, or None exactly when no image has it |
| LabController.GetImages | src/noteburst/jupyterclient/labcontroller.py:206-222 | LabControllerError with its message for a non-200 status or an invalid body; otherwise the listing |
| LabController.GetLatestWeekly | src/noteburst/jupyterclient/labcontroller.py:146-164 | the listing's latest weekly image, or "No weekly image found." |
| LabController.GetRecommended | src/noteburst/jupyterclient/labcontroller.py:166-183 | the listing's recommended image, or "No recommended image found." |
| LabController.ClientGetByReference | src/noteburst/jupyterclient/labcontroller.py:185-204 | an image with the reference exactly when the listing has one; otherwise "No image with reference ... found." |
| Cachemachine.ToString | src/noteburst/jupyterclient/cachemachine.py:33-34 | reference, name and digest ("" when None) joined with a vertical bar |
| Cachemachine.ToStringSplits | src/noteburst/jupyterclient/cachemachine.py:33-34 | when no part holds a vertical bar, the text splits back into reference, name and digest |
| Cachemachine.FromDict | src/noteburst/jupyterclient/cachemachine.py:36-45 | image_url, name and image_hash become reference, name and digest; otherwise a KeyError naming the first of the three, in that order, that is missing |
| Cachemachine.FromReference | src/noteburst/jupyterclient/cachemachine.py:47-51 | the name is the text after the last ":" and the digest is ""; a reference with no ":" fails |
| Cachemachine.FromReferenceTag | src/noteburst/jupyterclient/cachemachine.py:47-51 | a "repository:tag" reference is named by its tag |
| Cachemachine.FirstWeekly | src/noteburst/jupyterclient/cachemachine.py:88-90 | the first index whose name starts with "Weekly", None exactly when there is none |
| Cachemachine.FromDicts | src/noteburst/jupyterclient/cachemachine.py:120 | every entry of the listing read in order; any malformed entry spoils the listing, with the KeyError of one of its entries |
| Cachemachine.GetImages | src/noteburst/jupyterclient/cachemachine.py:109-123 | the images exactly for a 200 reply whose entries are all valid; otherwise CachemachineError: "Cannot get image status from cachemachine: <status> <reason>" for a non-200 status, and "Invalid response from cachemachine: " followed by the exception's text for a malformed body, which for a missing key is the key in single quotes |
| Cachemachine.GetLatestWeekly | src/noteburst/jupyterclient/cachemachine.py:74-91 | succeeds exactly when the listing is read and has an image whose name starts with "Weekly", and then returns the first such image; "No weekly versions found" when none does; the listing's own error otherwise |
| Cachemachine.GetRecommended | src/noteburst/jupyterclient/cachemachine.py:93-107 | the first image of the listing; an empty listing raises IndexError |
| JupyterLab.UrlFor | src/noteburst/jupyterclient/jupyterlab.py:454-459 | base and path joined directly when the base ends in "/", and with one "/" otherwise |
| JupyterLab.UrlForTrailingSlash | src/noteburst/jupyterclient/jupyterlab.py:454-459 | a base with or without its trailing "/" gives the same URL, with exactly one "/" between base and path |
| JupyterLab.ParseProgressLine | src/noteburst/jupyterclient/jupyterlab.py:72-90 | an event comes only from a "data:" line whose stripped rest decodes with a progress and a message; ready is false unless given |
| JupyterLab.ProgressEvents | src/noteburst/jupyterclient/jupyterlab.py:67-102 | at most one event per line, in order |
| JupyterLab.ProgressEventsAppend | src/noteburst/jupyterclient/jupyterlab.py:72-102 | the events of two stretches of lines are the events of each in order |
| JupyterLab.ProgressEventsNeedData | src/noteburst/jupyterclient/jupyterlab.py:73-74 | lines without the "data:" prefix yield nothing |
| JupyterLab.SpawnProgressAsWritten | src/noteburst/jupyterclient/jupyterlab.py:580-598 | the code as written reaches the unbound last-event variable only when no stream so far had an event and the current 200 stream has none |
| JupyterLab.SpawnProgressFrom | src/noteburst/jupyterclient/jupyterlab.py:580-598 | a run never reaches an unbound variable: every stream without a ready event is followed by a new connection |
| JupyterLab.SpawnProgressFromExtends | src/noteburst/jupyterclient/jupyterlab.py:580-598 | the events yielded only ever extend those yielded before |
| JupyterLab.SpawnProgressFromReady | src/noteburst/jupyterclient/jupyterlab.py:580-598 | a run ends ready only right after an event with progress above 0 |
| JupyterLab.SpawnProgress | src/noteburst/jupyterclient/jupyterlab.py:567-598 | the reconnect loop yields exactly the specification's events and ends as it does |
| JupyterLab.EmptyFirstStreamUnbound | src/noteburst/jupyterclient/jupyterlab.py:589-596 | a first 200 stream with no event reaches the unbound variable as written; as intended it reconnects |
| JupyterLab.SpawnProgressAgrees | src/noteburst/jupyterclient/jupyterlab.py:580-598 | whenever the code as written does not reach the unbound variable, it behaves exactly as intended |
| JupyterLab.ProcessMessage | src/noteburst/jupyterclient/jupyterlab.py:172-224 | a message for another request is ignored; an error, or a reply whose status is not ok, is a CodeExecutionError with the joined traceback or the status; a stream gives its text; an ok reply is done; any other type gives nothing |
| JupyterLab.RunPython | src/noteburst/jupyterclient/jupyterlab.py:156-170 | the loop's result is the specification's |
| JupyterLab.FirstStop | src/noteburst/jupyterclient/jupyterlab.py:157-168 | the first answer of type error or execute_reply; no earlier message is one |
| JupyterLab.RunPythonResult | src/noteburst/jupyterclient/jupyterlab.py:156-170 | run_python returns the stream texts in arrival order up to the first done message; on an error, the output so far is attached as result only when it is not empty |
| JupyterLab.CodeExecutionErrorText | src/noteburst/jupyterclient/jupyterlab.py:343-354 | the text always ends with the "Error:" line ("None" for no error) and starts with the result line only when the result is not empty |
| JupyterLab.ErrorTextWithResult | src/noteburst/jupyterclient/jupyterlab.py:349-353 | attaching empty output leaves the error text unchanged; non-empty output is put in front of it |
| JupyterLab.AdoptAll | src/noteburst/jupyterclient/jupyterlab.py:488-497 | the token either stays as it was or becomes a truthy cookie that differs from the other side's token |
| JupyterLab.JupyterClient.LogIntoHub | src/noteburst/jupyterclient/jupyterlab.py:483-508 | the hub token takes only truthy cookies that differ from the lab token; the lab token is untouched; a non-2xx final reply fails; no hub token fails with "No XSRF token found for JupyterHub" |
| JupyterLab.JupyterClient.LogIntoLab | src/noteburst/jupyterclient/jupyterlab.py:510-541 | the same for the lab token, kept apart from the hub token |
| JupyterLab.HubTokenDiffersFromLab | src/noteburst/jupyterclient/jupyterlab.py:486-497 | logging in never makes a hub token equal to the lab token |
| JupyterLab.BuildSpawnForm | src/noteburst/jupyterclient/jupyterlab.py:624-630 | both image fields name the image's reference; the size is the configured one |
| JupyterLab.IsLabStopped | src/noteburst/jupyterclient/jupyterlab.py:661-665 | a 200 reply tells whether the servers are gone; any other status is an error |
| JupyterLab.StopLab | src/noteburst/jupyterclient/jupyterlab.py:632-645 | an already stopped lab needs nothing; otherwise the delete succeeds exactly on 200, 202 or 204 |
| Models.FromNbexecError | src/noteburst/handlers/v1/models.py:37-47 | the name is the exception name (ename) and the message is err_msg |
| Models.FromJobMetadata | src/noteburst/handlers/v1/models.py:122-157 | ipynb and ipynb_error come only from a successful result; ipynb_error is set exactly when that result has an error; source only when asked for; the times and success are None exactly when there is no result; an invalid result or a missing argument is an error |
| Models.NewPostNotebookRequest | src/noteburst/handlers/v1/models.py:163-188 | the kernel defaults to "LSST" and enable_retry to true |
| Models.GetIpynbAsStr | src/noteburst/handlers/v1/models.py:190-195 | a string is returned unchanged; an object is JSON-encoded |

## Left out

- Network and I/O.
  - The HTTP, websocket and Redis exchanges themselves are left out.
  - Their results are inputs: lock keys held, spawn outcomes, statuses, cookies, event lines and kernel messages.
  - Delays are counted, not taken.
- Concurrency.
  - Several workers racing for the same locks are not modelled.
  - arq's job limits are not modelled.
  - The lock service's watchdog renewal appears only as the claim's validity flag, which the environment may clear.
- Lock service internals.
  - aioredlock is a set of held keys.
  - Releasing an invalid lock gives nothing back.
  - `destroy` only marks the client as torn down.
- Identity.IdentityManager.GetNextIdentity: `IdentityManager` (src/noteburst/worker/identity.py:68-166) defines no `get_next_identity`, so the call at src/noteburst/worker/main.py:129 would raise `AttributeError` as written. The model gives it the behaviour the spawn loop needs: release the previous claim, then scan strictly after its position.
- Identity.IdentityManager.Close: `release` and `destroy` are taken never to raise.
- Worker.Startup: the Nublado client's spawn sequence is not modelled. This covers the user token, login, spawn and progress. Only its outcome per attempt is an input.
- Worker.Startup: assumes pool usernames are unique. With duplicates, "the position after the previous identity" is not well defined.
- Worker.CreateMessage: the "Age" field is left out, because it is computed from the clock at posting time.
- Worker.Shutdown: the Nublado client's own stop and close calls are inputs. Each completes or raises.
- `WorkerSettings` is left out. It is declarative arq wiring with no computation.
- `_get_spawn_image` is left out. It only chooses between the image client calls modelled here.
- `url_for_websocket` is left out. It only rewrites a URL scheme with `urlparse`.
- JupyterLab.ParseProgressLine: the decoded event's field types are not checked, as in the source's dataclass. Decoding JSON is a function parameter.
- JupyterLab.JupyterClient.LogIntoHub: httpx's `raise_for_status` is taken to reject every final status outside 200..299. Redirect following is given as the cookies of the redirect replies.
- BaseConfig.ArqRedisSettings: Python's `int()` is modelled as an optional sign followed by ASCII digits. Surrounding white space and "_" digit separators, which `int()` also accepts, are not.
- Config: pydantic parsing, YAML loading and environment variables are left out. The configuration is a datatype of the settings the core reads.
- Models.FromJobMetadata: the `self_url` routing is an input. Times are opaque integers. The execution result's `resources` are not kept.
- Exceptions: Sentry reporting and the rest of Slack formatting are left out.
- Slack: posting is appending to a list of posts. The content of the parent exception's Slack message is an input.
- `worker/nublado.py`, `runpython.py`, the token clients, the FastAPI handlers and the tests are not part of this model.

## Findings

| source | as written | input that shows it | evidently intended | confidence | as-written member | corrected member |
|---|---|---|---|---|---|---|
| src/noteburst/worker/functions/nbexec.py:92 | `hasattr(e, "status") and e.status >= 400` compares the status with 400 even when it is None, which raises TypeError | a client error with status None (a failure with no HTTP response) and retries enabled | treat a missing status as outside the 4xx class: retry after job_try*5 seconds, or NbexecTaskError | medium, not executed | Nbexec.NbexecAsWritten | Nbexec.Nbexec |
| src/noteburst/jupyterclient/jupyterlab.py:589-596 | `message.progress` is read after an `async for` that may not bind `message` | a first progress connection with status 200 that sends no valid "data:" event | reconnect, as the comment at lines 592-595 says | medium, not executed | JupyterLab.SpawnProgressAsWritten | JupyterLab.SpawnProgressFrom |
