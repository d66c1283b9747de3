/** Slack messages, which several error paths build and extend in place. */
module Slack {

  datatype SlackTextField = SlackTextField(heading: string, text: string)

  class SlackMessage {
    var message: string
    var fields: seq<SlackTextField>

    constructor (message: string, fields: seq<SlackTextField>)
      ensures this.message == message && this.fields == fields
    {
      this.message := message;
      this.fields := fields;
    }

    /** `message.fields.append(field)`. */
    method AppendField(field: SlackTextField)
      modifies this
      ensures fields == old(fields) + [field]
      ensures message == old(message)
    {
      fields := fields + [field];
    }
  }
}

/** The worker's and the API's own exception classes and the messages they carry. */
module Exceptions {

  import opened Wrappers
  import opened Slack

  /** The task error classes: `TaskError`, `NbexecTaskError`, `NbexecTaskTimeoutError`. */
  datatype TaskErrorClass = TaskError | NbexecTaskError | NbexecTaskTimeoutError

  /** The class attribute `task_name`; the timeout class inherits it from `NbexecTaskError`. */
  function TaskName(cls: TaskErrorClass): (name: string)
    ensures name == "unknown" <==> cls == TaskError
    ensures name == "nbexec" <==> cls != TaskError
  {
    match cls
    case TaskError => "unknown"
    case NbexecTaskError => "nbexec"
    case NbexecTaskTimeoutError => "nbexec"
  }

  /**
   * The text `from_exception` puts before the wrapped exception's own text:
   * the task name, then "timeout error" for the timeout class and "task
   * error" for the others, then a blank line.
   */
  function MessagePrefix(cls: TaskErrorClass): string
  {
    match cls
    case TaskError => "unknown task error\n\n"
    case NbexecTaskError => "nbexec task error\n\n"
    case NbexecTaskTimeoutError => "nbexec timeout error\n\n"
  }

  /** Every message prefix starts with the class's task name followed by a space. */
  lemma MessagePrefixNamesTask(cls: TaskErrorClass)
    ensures |TaskName(cls)| < |MessagePrefix(cls)|
    ensures MessagePrefix(cls)[..|TaskName(cls)| + 1] == TaskName(cls) + " "
  {
    match cls
    case TaskError =>
      assert MessagePrefix(cls)[..8] == "unknown ";
    case NbexecTaskError =>
      assert MessagePrefix(cls)[..7] == "nbexec ";
    case NbexecTaskTimeoutError =>
      assert MessagePrefix(cls)[..7] == "nbexec ";
  }

  /**
   * `from_exception`: a single message string built from the class's task name
   * and the wrapped exception's text.
   */
  function FromException(cls: TaskErrorClass, exc: string): (msg: string)
    ensures cls == TaskError ==> msg == "unknown task error\n\n" + exc
    ensures cls == NbexecTaskError ==> msg == "nbexec task error\n\n" + exc
    ensures cls == NbexecTaskTimeoutError ==> msg == "nbexec timeout error\n\n" + exc
  {
    MessagePrefix(cls) + exc
  }

  /**
   * The message keeps everything: from a message one can tell a timeout from
   * a task error, an nbexec error from an unknown task's, and recover the
   * wrapped exception's text.
   */
  lemma FromExceptionInjective(c1: TaskErrorClass, e1: string, c2: TaskErrorClass, e2: string)
    ensures FromException(c1, e1) == FromException(c2, e2) ==> MessagePrefix(c1) == MessagePrefix(c2) && e1 == e2
  {
    var m1, m2 := FromException(c1, e1), FromException(c2, e2);
    var p1, p2 := MessagePrefix(c1), MessagePrefix(c2);
    if p1 != p2 {
      // the prefixes differ at their first or at their ninth character
      var i := if c1 == TaskError || c2 == TaskError then 0 else 8;
      assert p1[i] != p2[i];
      assert m1[i] == p1[i] && m2[i] == p2[i];
    } else {
      assert m1[|p1|..] == e1 && m2[|p2|..] == e2;
    }
  }

  /**
   * `NoteburstWorkerError`: a message plus Sentry tags and contexts; `None`
   * stands for an attribute the constructor did not set.
   */
  datatype NoteburstWorkerError = NoteburstWorkerError(
    msg: string,
    tags: Option<map<string, string>>,
    contexts: Option<map<string, map<string, string>>>)

  /** `NoteburstWorkerError.__init__`: tags and contexts are set only when they are given and not empty. */
  function NewWorkerError(msg: string, tags: Option<map<string, string>>,
                          contexts: Option<map<string, map<string, string>>>): (e: NoteburstWorkerError)
    ensures e.msg == msg
    ensures e.tags.Some? <==> tags.Some? && |tags.value| > 0
    ensures e.tags.Some? ==> e.tags == tags
    ensures e.contexts.Some? <==> contexts.Some? && |contexts.value| > 0
    ensures e.contexts.Some? ==> e.contexts == contexts
  {
    NoteburstWorkerError(
      msg,
      if tags.Some? && |tags.value| > 0 then tags else None,
      if contexts.Some? && |contexts.value| > 0 then contexts else None)
  }

  /**
   * `NoteburstJobError.to_slack`: the parent class's message (given here by
   * its text and fields) with exactly one "Job ID" field appended.
   */
  method JobErrorToSlack(parentMessage: string, parentFields: seq<SlackTextField>, jobId: string)
    returns (message: SlackMessage)
    ensures fresh(message)
    ensures message.message == parentMessage
    ensures message.fields == parentFields + [SlackTextField("Job ID", jobId)]
  {
    message := new SlackMessage(parentMessage, parentFields);
    message.AppendField(SlackTextField("Job ID", jobId));
  }
}
