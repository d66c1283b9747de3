/**
 * The JupyterHub / JupyterLab client: URLs, the spawn-progress event stream,
 * running code in a kernel over its websocket, the code execution error's
 * text, the XSRF tokens kept from the hub and lab logins, the spawn form and
 * stopping the lab.
 *
 * HTTP replies and kernel messages are datatypes holding the fields the
 * client reads; JSON decoding is a function parameter (`None` where
 * decoding fails).
 */
module JupyterLab {

  import opened Wrappers
  import opened Strings
  import LabController

  // ---------------------------------------------------------------------------
  // URLs
  // ---------------------------------------------------------------------------

  /** `url_for`: the path under the Jupyter URL, with a single "/" between them when the URL has none. */
  function UrlFor(base: string, path: string): (url: string)
    ensures EndsWith(base, "/") ==> url == base + path
    ensures !EndsWith(base, "/") ==> url == base + "/" + path
  {
    if EndsWith(base, "/") then base + path else base + "/" + path
  }

  /** A base URL with or without its trailing "/" gives the same URLs. */
  lemma UrlForTrailingSlash(base: string, path: string)
    requires !EndsWith(base, "/")
    ensures UrlFor(base + "/", path) == UrlFor(base, path)
    ensures UrlFor(base, path)[..|base|] == base && UrlFor(base, path)[|base|] == '/'
    ensures UrlFor(base, path)[|base| + 1..] == path
  {
    assert EndsWith(base + "/", "/");
  }

  // ---------------------------------------------------------------------------
  // spawn progress
  // ---------------------------------------------------------------------------

  /** `SpawnProgressMessage`. */
  datatype SpawnProgressMessage = SpawnProgressMessage(progress: int, message: string, ready: bool)

  /** A decoded event: the `progress`, `message` and `ready` keys, `None` where the key is absent. */
  datatype RawProgressEvent = RawProgressEvent(progress: Option<int>, message: Option<string>, ready: Option<bool>)

  const DataPrefix := "data:"

  /**
   * One line of the event stream: an event only for a "data:" line whose
   * stripped remainder decodes to an object with a progress and a message;
   * `ready` is false unless the event says otherwise.
   */
  function ParseProgressLine(line: string, decode: string -> Option<RawProgressEvent>): (r: Option<SpawnProgressMessage>)
    ensures r.Some? ==> StartsWith(line, DataPrefix)
    ensures r.Some? <==>
      StartsWith(line, DataPrefix)
      && decode(Strip(line[|DataPrefix|..])).Some?
      && decode(Strip(line[|DataPrefix|..])).value.progress.Some?
      && decode(Strip(line[|DataPrefix|..])).value.message.Some?
    ensures r.Some? ==>
      var event := decode(Strip(line[|DataPrefix|..])).value;
      && r.value.progress == event.progress.value && r.value.message == event.message.value
      && (r.value.ready <==> event.ready == Some(true))
  {
    if !StartsWith(line, DataPrefix) then None
    else
      var raw := Strip(line[|DataPrefix|..]);
      var decoded := decode(raw);
      if decoded.None? || decoded.value.progress.None? || decoded.value.message.None? then None
      else
        var event := decoded.value;
        Some(SpawnProgressMessage(event.progress.value, event.message.value,
                                  if event.ready.Some? then event.ready.value else false))
  }

  /** `JupyterSpawnProgress.__aiter__`: the events of the stream's lines, in order, skipping every other line. */
  function ProgressEvents(lines: seq<string>, decode: string -> Option<RawProgressEvent>): (events: seq<SpawnProgressMessage>)
    ensures |events| <= |lines|
  {
    if |lines| == 0 then [] else LineEvents(lines[0], decode) + ProgressEvents(lines[1..], decode)
  }

  /** The event of one line, if it has one. */
  function LineEvents(line: string, decode: string -> Option<RawProgressEvent>): (events: seq<SpawnProgressMessage>)
    ensures |events| <= 1
  {
    var event := ParseProgressLine(line, decode);
    if event.Some? then [event.value] else []
  }

  /** The stream is read line by line: the events of two stretches of lines are the events of each, in order. */
  lemma {:induction false} ProgressEventsAppend(a: seq<string>, b: seq<string>, decode: string -> Option<RawProgressEvent>)
    ensures ProgressEvents(a + b, decode) == ProgressEvents(a, decode) + ProgressEvents(b, decode)
  {
    if |a| > 0 {
      var head := LineEvents(a[0], decode);
      assert (a + b)[0] == a[0];
      assert (a + b)[1..] == a[1..] + b;
      assert ProgressEvents(a + b, decode) == head + ProgressEvents(a[1..] + b, decode);
      ProgressEventsAppend(a[1..], b, decode);
      assert ProgressEvents(a, decode) == head + ProgressEvents(a[1..], decode);
    } else {
      assert a + b == b;
    }
  }

  /** Lines that are not "data:" lines yield no event. */
  lemma {:induction false} ProgressEventsNeedData(lines: seq<string>, decode: string -> Option<RawProgressEvent>)
    requires forall k :: 0 <= k < |lines| ==> !StartsWith(lines[k], DataPrefix)
    ensures ProgressEvents(lines, decode) == []
  {
    if |lines| > 0 {
      ProgressEventsNeedData(lines[1..], decode);
    }
  }

  /** One connection to the progress endpoint: its status and the lines it sent. */
  datatype ProgressStream = ProgressStream(status: int, lines: seq<string>)

  /**
   * How watching the progress ended: the lab became ready (an event with
   * progress above 0 ended a stream), a connection was refused, the
   * variable holding the last event was never bound, or the connections
   * given ran out (the code would still be reconnecting).
   */
  datatype ProgressEnd = Ready | StreamFailed(status: int) | UnboundEvent | StillWaiting

  datatype ProgressRun = ProgressRun(events: seq<SpawnProgressMessage>, end: ProgressEnd, reconnects: nat)

  /** The last event of a stream, if it has one. */
  function LastEvent(events: seq<SpawnProgressMessage>): Option<SpawnProgressMessage>
  {
    if |events| == 0 then None else Some(events[|events| - 1])
  }

  /**
   * `spawn_progress` as written: after each stream it reads the loop variable
   * of the `async for`, which keeps the previous stream's last event when
   * this stream had none, and is unbound when no stream has had one yet.
   */
  function SpawnProgressAsWritten(streams: seq<ProgressStream>, decode: string -> Option<RawProgressEvent>, i: nat,
                                  last: Option<SpawnProgressMessage>, events: seq<SpawnProgressMessage>,
                                  reconnects: nat): (run: ProgressRun)
    ensures run.end == UnboundEvent ==>
      last.None? && i < |streams| && streams[i].status == 200 && ProgressEvents(streams[i].lines, decode) == []
    decreases |streams| - i
  {
    if i >= |streams| then ProgressRun(events, StillWaiting, reconnects)
    else if streams[i].status != 200 then ProgressRun(events, StreamFailed(streams[i].status), reconnects)
    else
      var streamEvents := ProgressEvents(streams[i].lines, decode);
      var message := if |streamEvents| > 0 then LastEvent(streamEvents) else last;
      if message.None? then ProgressRun(events + streamEvents, UnboundEvent, reconnects)
      else if message.value.progress > 0 then ProgressRun(events + streamEvents, Ready, reconnects)
      else SpawnProgressAsWritten(streams, decode, i + 1, message, events + streamEvents, reconnects + 1)
  }

  /**
   * `spawn_progress` as intended: a stream that ends without an event of
   * progress above 0, including one with no event at all, is followed by a
   * new connection.
   */
  function SpawnProgressFrom(streams: seq<ProgressStream>, decode: string -> Option<RawProgressEvent>, i: nat,
                             events: seq<SpawnProgressMessage>, reconnects: nat): (run: ProgressRun)
    ensures run.end != UnboundEvent
    decreases |streams| - i
  {
    if i >= |streams| then ProgressRun(events, StillWaiting, reconnects)
    else if streams[i].status != 200 then ProgressRun(events, StreamFailed(streams[i].status), reconnects)
    else
      var streamEvents := ProgressEvents(streams[i].lines, decode);
      var message := LastEvent(streamEvents);
      if message.Some? && message.value.progress > 0 then ProgressRun(events + streamEvents, Ready, reconnects)
      else SpawnProgressFrom(streams, decode, i + 1, events + streamEvents, reconnects + 1)
  }

  /** Watching only ever adds events to those yielded before. */
  lemma {:induction false} SpawnProgressFromExtends(streams: seq<ProgressStream>, decode: string -> Option<RawProgressEvent>,
                                                    i: nat, events: seq<SpawnProgressMessage>, reconnects: nat)
    ensures var run := SpawnProgressFrom(streams, decode, i, events, reconnects);
      |events| <= |run.events| && run.events[..|events|] == events
    decreases |streams| - i
  {
    if i < |streams| && streams[i].status == 200 {
      var streamEvents := ProgressEvents(streams[i].lines, decode);
      var all := events + streamEvents;
      assert all[..|events|] == events;
      var message := LastEvent(streamEvents);
      if !(message.Some? && message.value.progress > 0) {
        SpawnProgressFromExtends(streams, decode, i + 1, all, reconnects + 1);
        var run := SpawnProgressFrom(streams, decode, i + 1, all, reconnects + 1);
        assert run.events[..|events|] == run.events[..|all|][..|events|];
      }
    }
  }

  /** The lab is reported ready only right after an event with progress above 0. */
  lemma {:induction false} SpawnProgressFromReady(streams: seq<ProgressStream>, decode: string -> Option<RawProgressEvent>,
                                                  i: nat, events: seq<SpawnProgressMessage>, reconnects: nat)
    ensures var run := SpawnProgressFrom(streams, decode, i, events, reconnects);
      run.end == Ready ==> |run.events| > 0 && run.events[|run.events| - 1].progress > 0
    decreases |streams| - i
  {
    if i < |streams| && streams[i].status == 200 {
      var streamEvents := ProgressEvents(streams[i].lines, decode);
      var all := events + streamEvents;
      var message := LastEvent(streamEvents);
      if message.Some? && message.value.progress > 0 {
        assert all[|all| - 1] == streamEvents[|streamEvents| - 1];
      } else {
        SpawnProgressFromReady(streams, decode, i + 1, all, reconnects + 1);
      }
    }
  }

  /** Watch the spawn progress over the given connections, yielding every event. */
  method SpawnProgress(streams: seq<ProgressStream>, decode: string -> Option<RawProgressEvent>)
    returns (events: seq<SpawnProgressMessage>, end: ProgressEnd, reconnects: nat)
    ensures ProgressRun(events, end, reconnects) == SpawnProgressFrom(streams, decode, 0, [], 0)
  {
    events, reconnects := [], 0;
    var i := 0;
    while i < |streams|
      invariant 0 <= i <= |streams| && reconnects == i
      invariant SpawnProgressFrom(streams, decode, 0, [], 0) == SpawnProgressFrom(streams, decode, i, events, reconnects)
      decreases |streams| - i
    {
      if streams[i].status != 200 {
        return events, StreamFailed(streams[i].status), reconnects;
      }
      var streamEvents := ProgressEvents(streams[i].lines, decode);
      events := events + streamEvents;
      if |streamEvents| > 0 && streamEvents[|streamEvents| - 1].progress > 0 {
        return events, Ready, reconnects;
      }
      i := i + 1;
      reconnects := reconnects + 1;
    }
    end := StillWaiting;
  }

  /** A first connection that sends no event leaves the last-event variable unbound in the code as written. */
  lemma EmptyFirstStreamUnbound(decode: string -> Option<RawProgressEvent>)
    ensures SpawnProgressAsWritten([ProgressStream(200, [])], decode, 0, None, [], 0).end == UnboundEvent
    ensures SpawnProgressFrom([ProgressStream(200, [])], decode, 0, [], 0) == ProgressRun([], StillWaiting, 1)
  {
  }

  /**
   * Apart from the unbound variable, the code as written behaves as
   * intended: a stale event from an earlier stream never had progress above 0.
   */
  lemma {:induction false} SpawnProgressAgrees(streams: seq<ProgressStream>, decode: string -> Option<RawProgressEvent>,
                                              i: nat, last: Option<SpawnProgressMessage>,
                                              events: seq<SpawnProgressMessage>, reconnects: nat)
    requires last.Some? ==> last.value.progress <= 0
    ensures SpawnProgressAsWritten(streams, decode, i, last, events, reconnects).end != UnboundEvent ==>
      SpawnProgressAsWritten(streams, decode, i, last, events, reconnects)
        == SpawnProgressFrom(streams, decode, i, events, reconnects)
    decreases |streams| - i
  {
    if i < |streams| && streams[i].status == 200 {
      var streamEvents := ProgressEvents(streams[i].lines, decode);
      var message := if |streamEvents| > 0 then LastEvent(streamEvents) else last;
      if message.Some? && message.value.progress <= 0 {
        SpawnProgressAgrees(streams, decode, i + 1, message, events + streamEvents, reconnects + 1);
      }
    }
  }

  // ---------------------------------------------------------------------------
  // running code in the kernel
  // ---------------------------------------------------------------------------

  /** A kernel message on the websocket: its type, its parent's message id, and the content fields read. */
  datatype KernelMsg = KernelMsg(
    msgType: string,
    parentMsgId: Option<string>,
    text: string,
    status: string,
    traceback: seq<string>)

  /** `WebSocketMessageOutput`. */
  datatype MessageOutput = MessageOutput(content: string, done: bool)

  /** `CodeExecutionError` and its attributes; `None` is an attribute left at `None`. */
  datatype CodeExecutionError = CodeExecutionError(
    username: string,
    code: string,
    codeType: string,
    error: Option<string>,
    status: Option<string>,
    result: Option<string>)

  /** `"".join(parts)`. */
  function Concat(parts: seq<string>): string
  {
    if |parts| == 0 then "" else parts[0] + Concat(parts[1..])
  }

  /** A message answering the request `msgId`. */
  predicate Answers(m: KernelMsg, msgId: string)
  {
    m.parentMsgId == Some(msgId)
  }

  /** A message that ends the run: an answer of type "error" or "execute_reply". */
  predicate Stops(m: KernelMsg, msgId: string)
  {
    Answers(m, msgId) && (m.msgType == "error" || m.msgType == "execute_reply")
  }

  /**
   * `_process_run_python_message`: a message for another request is
   * ignored; an answer of type "error", or an "execute_reply" whose status
   * is not "ok", is a code execution error; a "stream" gives its text; an
   * "ok" reply ends the run; anything else gives nothing.
   */
  function ProcessMessage(m: KernelMsg, msgId: string, username: string, code: string)
    : (r: Result<MessageOutput, CodeExecutionError>)
    ensures !Answers(m, msgId) ==> r == Ok(MessageOutput("", false))
    ensures r.Err? <==> Stops(m, msgId) && !(m.msgType == "execute_reply" && m.status == "ok")
    ensures r.Ok? ==> (r.value.done <==> Stops(m, msgId))
    ensures r.Ok? ==> r.value.content == if Answers(m, msgId) && m.msgType == "stream" then m.text else ""
    ensures r.Err? ==> r.error.username == username && r.error.code == code && r.error.codeType == "code"
                       && r.error.result.None?
    ensures r.Err? && m.msgType == "error" ==> r.error.error == Some(Concat(m.traceback)) && r.error.status.None?
    ensures r.Err? && m.msgType != "error" ==> r.error.error.None? && r.error.status == Some(m.status)
  {
    if !Answers(m, msgId) then Ok(MessageOutput("", false))
    else if m.msgType == "error" then
      Err(CodeExecutionError(username, code, "code", Some(Concat(m.traceback)), None, None))
    else if m.msgType == "stream" then Ok(MessageOutput(m.text, false))
    else if m.msgType == "execute_reply" then
      if m.status == "ok" then Ok(MessageOutput("", true))
      else Err(CodeExecutionError(username, code, "code", None, Some(m.status), None))
    else Ok(MessageOutput("", false))
  }

  /** The error raised from `run_python`: the output so far is attached only when there is some. */
  function WithResult(e: CodeExecutionError, output: string): CodeExecutionError
  {
    if output != "" then e.(result := Some(output)) else e
  }

  /** What `run_python` does with the messages after those already read, `output` being the output so far. */
  function Collect(msgs: seq<KernelMsg>, msgId: string, username: string, code: string, output: string)
    : Result<string, CodeExecutionError>
  {
    if |msgs| == 0 then Ok(output)
    else
      var processed := ProcessMessage(msgs[0], msgId, username, code);
      if processed.Err? then Err(WithResult(processed.error, output))
      else if processed.value.done then Ok(output + processed.value.content)
      else Collect(msgs[1..], msgId, username, code, output + processed.value.content)
  }

  /**
   * `run_python`: read the kernel's messages in order, adding up their
   * output, until the reply that ends the run.
   */
  method RunPython(msgs: seq<KernelMsg>, msgId: string, username: string, code: string)
    returns (r: Result<string, CodeExecutionError>)
    ensures r == Collect(msgs, msgId, username, code, "")
  {
    var result := "";
    for i := 0 to |msgs|
      invariant Collect(msgs, msgId, username, code, "") == Collect(msgs[i..], msgId, username, code, result)
    {
      assert msgs[i..][1..] == msgs[i + 1..];
      var processed := ProcessMessage(msgs[i], msgId, username, code);
      if processed.Err? {
        var e := processed.error;
        if result != "" {
          e := e.(result := Some(result));
        }
        return Err(e);
      }
      result := result + processed.value.content;
      if processed.value.done {
        return Ok(result);
      }
    }
    assert msgs[|msgs|..] == [];
    r := Ok(result);
  }

  /** The index of the first message that ends the run, or the number of messages when none does. */
  function FirstStop(msgs: seq<KernelMsg>, msgId: string): (k: nat)
    ensures k <= |msgs|
    ensures k < |msgs| ==> Stops(msgs[k], msgId)
    ensures forall j :: 0 <= j < k ==> !Stops(msgs[j], msgId)
  {
    if |msgs| == 0 then 0
    else if Stops(msgs[0], msgId) then 0
    else 1 + FirstStop(msgs[1..], msgId)
  }

  /** The texts of the "stream" answers among `msgs`, in arrival order. */
  function StreamText(msgs: seq<KernelMsg>, msgId: string): string
  {
    if |msgs| == 0 then ""
    else (if Answers(msgs[0], msgId) && msgs[0].msgType == "stream" then msgs[0].text else "")
         + StreamText(msgs[1..], msgId)
  }

  /** The run's answer from the messages after `output`: see `RunPythonResult`. */
  lemma {:induction false} CollectResult(msgs: seq<KernelMsg>, msgId: string, username: string, code: string, output: string)
    ensures var k := FirstStop(msgs, msgId);
      var text := output + StreamText(msgs[..k], msgId);
      Collect(msgs, msgId, username, code, output) ==
        if k == |msgs| || (msgs[k].msgType == "execute_reply" && msgs[k].status == "ok") then Ok(text)
        else Err(WithResult(ProcessMessage(msgs[k], msgId, username, code).error, text))
  {
    assert output + StreamText(msgs[..0], msgId) == output by {
      assert msgs[..0] == [];
    }
    if |msgs| > 0 {
      var m := msgs[0];
      var content := if Answers(m, msgId) && m.msgType == "stream" then m.text else "";
      if !Stops(m, msgId) {
        CollectResult(msgs[1..], msgId, username, code, output + content);
        var k := FirstStop(msgs[1..], msgId);
        assert msgs[..k + 1][1..] == msgs[1..][..k];
        assert FirstStop(msgs, msgId) == k + 1;
        assert k < |msgs[1..]| ==> msgs[k + 1] == msgs[1..][k];
        assert StreamText(msgs[..k + 1], msgId) == content + StreamText(msgs[1..][..k], msgId);
        assert output + content + StreamText(msgs[1..][..k], msgId)
            == output + StreamText(msgs[..k + 1], msgId);
      }
    }
  }

  /**
   * `run_python`'s result: the concatenated texts of the "stream" answers,
   * in arrival order, up to the first answer that ends the run. When that
   * answer is an error, the error carries that text as its result only
   * when the text is not empty.
   */
  lemma RunPythonResult(msgs: seq<KernelMsg>, msgId: string, username: string, code: string)
    ensures var k := FirstStop(msgs, msgId);
      var text := StreamText(msgs[..k], msgId);
      Collect(msgs, msgId, username, code, "") ==
        if k == |msgs| || (msgs[k].msgType == "execute_reply" && msgs[k].status == "ok") then Ok(text)
        else Err(WithResult(ProcessMessage(msgs[k], msgId, username, code).error, text))
  {
    CollectResult(msgs, msgId, username, code, "");
    assert "" + StreamText(msgs[..FirstStop(msgs, msgId)], msgId) == StreamText(msgs[..FirstStop(msgs, msgId)], msgId);
  }

  /** Python's f-string text of an optional string: the string, or "None". */
  function NoneText(s: Option<string>): string
  {
    if s.Some? then s.value else "None"
  }

  /** The message part of the error's text, before any result is put in front of it. */
  function ErrorMessage(e: CodeExecutionError): string
  {
    e.username + ": running " + e.codeType + " '" + e.code + "' failed" + "\nError: " + NoneText(e.error)
  }

  /**
   * `CodeExecutionError.__str__`: always ends with the "Error:" line, and
   * starts with the result and a line break only when the result is not empty.
   */
  function CodeExecutionErrorText(e: CodeExecutionError): (text: string)
    ensures EndsWith(text, "\nError: " + NoneText(e.error))
    ensures e.result.Some? && e.result.value != "" ==> text == e.result.value + "\n" + ErrorMessage(e)
    ensures !(e.result.Some? && e.result.value != "") ==> text == ErrorMessage(e)
  {
    var message := ErrorMessage(e);
    assert EndsWith(message, "\nError: " + NoneText(e.error));
    if e.result.Some? && e.result.value != "" then e.result.value + "\n" + message else message
  }

  /** Attaching an empty output leaves the error's text as it was; a non-empty one is put in front of it. */
  lemma ErrorTextWithResult(e: CodeExecutionError, output: string)
    requires e.result.None?
    ensures output == "" ==> CodeExecutionErrorText(WithResult(e, output)) == CodeExecutionErrorText(e)
    ensures output != "" ==> CodeExecutionErrorText(WithResult(e, output)) == output + "\n" + CodeExecutionErrorText(e)
  {
  }

  // ---------------------------------------------------------------------------
  // logging in: XSRF tokens
  // ---------------------------------------------------------------------------

  /** The failures of the client's HTTP exchanges. */
  datatype JupyterFailure =
    | HttpStatusError(status: int)              // `raise_for_status` on a reply that is not 2xx
    | NoXsrfToken(reason: string, status: int)  // `JupyterError` for a login without a token
    | ResponseError(status: int)                // `JupyterError.from_response`

  predicate IsSuccess(status: int)
  {
    200 <= status < 300
  }

  /** A token is truthy: present and not empty. */
  predicate Truthy(token: Option<string>)
  {
    token.Some? && token.value != ""
  }

  /** Keep a reply's `_xsrf` cookie as this side's token when it is truthy and differs from the other side's. */
  function Adopt(own: Option<string>, other: Option<string>, cookie: Option<string>): Option<string>
  {
    if Truthy(cookie) && cookie != other then cookie else own
  }

  /** The token after the replies' cookies, in order. */
  function AdoptAll(own: Option<string>, other: Option<string>, cookies: seq<Option<string>>): (token: Option<string>)
    ensures token == own || (Truthy(token) && token != other && token in cookies)
  {
    if |cookies| == 0 then own
    else Adopt(AdoptAll(own, other, cookies[..|cookies| - 1]), other, cookies[|cookies| - 1])
  }

  /** The client's XSRF tokens for the hub and for the lab. */
  class JupyterClient {
    var hubXsrf: Option<string>
    var labXsrf: Option<string>

    constructor ()
      ensures hubXsrf.None? && labXsrf.None?
    {
      hubXsrf, labXsrf := None, None;
    }

    /**
     * `log_into_hub`: follow the redirects, keeping each reply's cookie as
     * the hub token when it is truthy and differs from the lab token; fail on
     * a final reply that is not 2xx, and fail when no hub token was found.
     */
    method LogIntoHub(redirectCookies: seq<Option<string>>, finalStatus: int, finalCookie: Option<string>)
      returns (failure: Option<JupyterFailure>)
      modifies this
      ensures labXsrf == old(labXsrf)
      ensures hubXsrf == AdoptAll(old(hubXsrf), labXsrf,
                                  redirectCookies + if IsSuccess(finalStatus) then [finalCookie] else [])
      ensures !IsSuccess(finalStatus) ==> failure == Some(HttpStatusError(finalStatus))
      ensures IsSuccess(finalStatus) && !Truthy(hubXsrf) ==>
        failure == Some(NoXsrfToken("No XSRF token found for JupyterHub", finalStatus))
      ensures failure.None? <==> IsSuccess(finalStatus) && Truthy(hubXsrf)
    {
      for i := 0 to |redirectCookies|
        invariant labXsrf == old(labXsrf)
        invariant hubXsrf == AdoptAll(old(hubXsrf), labXsrf, redirectCookies[..i])
      {
        var xsrf := redirectCookies[i];
        assert redirectCookies[..i + 1][..i] == redirectCookies[..i];
        if Truthy(xsrf) && xsrf != labXsrf {
          hubXsrf := xsrf;
        }
      }
      assert redirectCookies[..|redirectCookies|] == redirectCookies;
      if !IsSuccess(finalStatus) {
        assert redirectCookies + [] == redirectCookies;
        return Some(HttpStatusError(finalStatus));
      }
      assert (redirectCookies + [finalCookie])[..|redirectCookies|] == redirectCookies;
      if Truthy(finalCookie) && finalCookie != labXsrf {
        hubXsrf := finalCookie;
      }
      if !Truthy(hubXsrf) {
        return Some(NoXsrfToken("No XSRF token found for JupyterHub", finalStatus));
      }
      failure := None;
    }

    /** `log_into_lab`: the same, for the lab token, kept apart from the hub token. */
    method LogIntoLab(redirectCookies: seq<Option<string>>, finalStatus: int, finalCookie: Option<string>)
      returns (failure: Option<JupyterFailure>)
      modifies this
      ensures hubXsrf == old(hubXsrf)
      ensures labXsrf == AdoptAll(old(labXsrf), hubXsrf,
                                  redirectCookies + if IsSuccess(finalStatus) then [finalCookie] else [])
      ensures !IsSuccess(finalStatus) ==> failure == Some(HttpStatusError(finalStatus))
      ensures IsSuccess(finalStatus) && !Truthy(labXsrf) ==>
        failure == Some(NoXsrfToken("No XSRF token found for JupyterLab", finalStatus))
      ensures failure.None? <==> IsSuccess(finalStatus) && Truthy(labXsrf)
    {
      for i := 0 to |redirectCookies|
        invariant hubXsrf == old(hubXsrf)
        invariant labXsrf == AdoptAll(old(labXsrf), hubXsrf, redirectCookies[..i])
      {
        var xsrf := redirectCookies[i];
        assert redirectCookies[..i + 1][..i] == redirectCookies[..i];
        if Truthy(xsrf) && xsrf != hubXsrf {
          labXsrf := xsrf;
        }
      }
      assert redirectCookies[..|redirectCookies|] == redirectCookies;
      if !IsSuccess(finalStatus) {
        assert redirectCookies + [] == redirectCookies;
        return Some(HttpStatusError(finalStatus));
      }
      assert (redirectCookies + [finalCookie])[..|redirectCookies|] == redirectCookies;
      if Truthy(finalCookie) && finalCookie != hubXsrf {
        labXsrf := finalCookie;
      }
      if !Truthy(labXsrf) {
        return Some(NoXsrfToken("No XSRF token found for JupyterLab", finalStatus));
      }
      failure := None;
    }
  }

  /**
   * Logging into the hub never makes the hub token equal to a lab token it
   * did not already equal: a new hub token always differs from the lab token.
   */
  lemma HubTokenDiffersFromLab(own: Option<string>, lab: Option<string>, cookies: seq<Option<string>>)
    requires own != lab
    ensures AdoptAll(own, lab, cookies) != lab
  {
  }

  // ---------------------------------------------------------------------------
  // spawn form and stopping the lab
  // ---------------------------------------------------------------------------

  /** The form posted to the spawn page. */
  datatype SpawnForm = SpawnForm(imageList: seq<string>, imageDropdown: seq<string>, size: string)

  /** `_build_jupyter_spawn_form`: both image fields name the image's reference; the size is the configured one. */
  function BuildSpawnForm(image: LabController.JupyterImage, size: string): (form: SpawnForm)
    ensures form.imageList == [image.reference] && form.imageDropdown == [image.reference]
    ensures form.size == size
  {
    SpawnForm([image.reference], [image.reference], size)
  }

  /** `is_lab_stopped`: a 200 reply tells whether the user's servers are gone; any other status fails. */
  function IsLabStopped(status: int, servers: map<string, string>): (r: Result<bool, JupyterFailure>)
    ensures r.Ok? <==> status == 200
    ensures r.Ok? ==> (r.value <==> servers == map[])
    ensures r.Err? ==> r.error == ResponseError(status)
  {
    if status != 200 then Err(ResponseError(status)) else Ok(servers == map[])
  }

  datatype StopOutcome = AlreadyStopped | StopRequested

  /**
   * `stop_lab`: nothing to do when the lab is already stopped; otherwise
   * delete the server, which succeeds on 200, 202 or 204. A failure to
   * learn whether the lab is stopped is passed on.
   */
  function StopLab(stopped: Result<bool, JupyterFailure>, deleteStatus: int): (r: Result<StopOutcome, JupyterFailure>)
    ensures stopped.Err? ==> r == Err(stopped.error)
    ensures stopped == Ok(true) ==> r == Ok(AlreadyStopped)
    ensures stopped == Ok(false) ==>
      (r == Ok(StopRequested) <==> deleteStatus in {200, 202, 204})
    ensures stopped == Ok(false) && deleteStatus !in {200, 202, 204} ==> r == Err(ResponseError(deleteStatus))
  {
    if stopped.Err? then Err(stopped.error)
    else if stopped.value then Ok(AlreadyStopped)
    else if deleteStatus in {200, 202, 204} then Ok(StopRequested)
    else Err(ResponseError(deleteStatus))
  }
}
