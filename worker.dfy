/**
 * The worker's life cycle: start-up (choose the image, claim an identity,
 * spawn a JupyterLab pod, moving on to the next identity after a spawn
 * failure of a known kind), shut-down (five clean-up steps, each isolated
 * from the others' failures) and the keep-alive cron schedule.
 *
 * The arq worker context is a class whose fields are the context's entries;
 * an entry that is absent is a `false`, `null` or `None` field. Spawning a pod
 * is an input: `spawn(k)` is how the `k`-th spawn attempt ends.
 */
module Worker {

  import opened Wrappers
  import opened Identity
  import opened Config
  import opened Slack

  // ---------------------------------------------------------------------------
  // image and Slack messages
  // ---------------------------------------------------------------------------

  /**
   * The image start-up asks for: by reference for the reference selector, the
   * latest weekly for the weekly selector, and otherwise the default class,
   * the recommended image. It is the same image the configuration's
   * `nublado_image` names.
   */
  function StartupImage(c: WorkerConfig): (image: NubladoImage)
    requires ImageRefSet(c)
    ensures image == NubladoImageOf(c)
  {
    if c.imageSelector == Reference then ByReference(c.imageReference.value)
    else if c.imageSelector == Weekly then ByClass(LatestWeekly)
    else ByClass(RecommendedClass)
  }

  /** The text value of an image selector. */
  function SelectorText(selector: ImageSelector): string
  {
    match selector
    case Recommended => "recommended"
    case Weekly => "weekly"
    case Reference => "reference"
  }

  /** The Slack message factory start-up stores: it remembers the claimed username and the configuration. */
  datatype MessageFactory = MessageFactory(username: string, config: WorkerConfig)

  /** A message as it is posted to Slack. */
  datatype SlackPost = SlackPost(message: string, fields: seq<SlackTextField>)

  const StartedText := "Noteburst worker started"
  const ShutDownText := "Noteburst worker shut down complete."

  /**
   * `create_message`: the text with the worker's username, image selector and
   * image reference (the reference only for the reference selector, "N/A"
   * otherwise). The message's age field is left out.
   */
  function CreateMessage(factory: MessageFactory, text: string): (post: SlackPost)
    ensures post.message == text && |post.fields| == 3
    ensures post.fields[0] == SlackTextField("Username", factory.username)
    ensures post.fields[1] == SlackTextField("Image Selector", SelectorText(factory.config.imageSelector))
    ensures post.fields[2].heading == "Image Ref"
    ensures factory.config.imageSelector == Reference && factory.config.imageReference.Some? ==>
      post.fields[2].text == factory.config.imageReference.value
    ensures factory.config.imageSelector != Reference ==> post.fields[2].text == "N/A"
  {
    var c := factory.config;
    SlackPost(text, [
      SlackTextField("Username", factory.username),
      SlackTextField("Image Selector", SelectorText(c.imageSelector)),
      SlackTextField("Image Ref",
        if c.imageSelector == Reference then (if c.imageReference.Some? then c.imageReference.value else "None")
        else "N/A")])
  }

  // ---------------------------------------------------------------------------
  // worker context
  // ---------------------------------------------------------------------------

  /** A spawned JupyterLab pod: whose it is and which image it runs. */
  datatype NubladoPod = NubladoPod(username: string, image: NubladoImage)

  /** The arq worker context: one field per entry the worker reads or writes. */
  /**
   * The keys of arq's context dictionary that the worker sets: "http_client",
   * "identity_manager", "jupyter_client", "logger", "slack" and
   * "slack_message_factory".
   */
  datatype ContextKey = HttpClientKey | IdentityManagerKey | JupyterClientKey | LoggerKey | SlackKey | MessageFactoryKey

  const AllKeys: set<ContextKey> := {HttpClientKey, IdentityManagerKey, JupyterClientKey, LoggerKey, SlackKey, MessageFactoryKey}

  class WorkerContext {
    var httpClient: bool                        // "http_client"
    var slack: bool                             // "slack"
    var identityManager: IdentityManager?       // "identity_manager"
    var jupyterClient: Option<NubladoPod>       // "jupyter_client"
    var logger: bool                            // "logger"
    var messageFactory: Option<MessageFactory>  // "slack_message_factory"
    /** The messages posted to Slack, oldest first. */
    var slackPosts: seq<SlackPost>

    /** The context arq hands to start-up: no entries yet. */
    constructor ()
      ensures !httpClient && !slack && identityManager == null && jupyterClient.None?
      ensures !logger && messageFactory.None? && slackPosts == []
    {
      httpClient, slack, identityManager, jupyterClient := false, false, null, None;
      logger, messageFactory, slackPosts := false, None, [];
    }

    /** Whether the context holds the entry `key`. */
    predicate Has(key: ContextKey)
      reads this`httpClient, this`slack, this`identityManager, this`jupyterClient, this`logger, this`messageFactory
    {
      match key
      case HttpClientKey => httpClient
      case IdentityManagerKey => identityManager != null
      case JupyterClientKey => jupyterClient.Some?
      case LoggerKey => logger
      case SlackKey => slack
      case MessageFactoryKey => messageFactory.Some?
    }

    /** The entries present in the context. */
    function Keys(): (keys: set<ContextKey>)
      reads this`httpClient, this`slack, this`identityManager, this`jupyterClient, this`logger, this`messageFactory
      ensures forall key :: key in keys <==> Has(key)
    {
      set key | key in AllKeys && Has(key)
    }

    /** The objects that closing the identity manager changes. */
    ghost function ManagerFrame(): set<object>
      reads this, if identityManager != null then {identityManager} else {}
    {
      if identityManager == null then {}
      else {identityManager, identityManager.lockManager}
           + (if identityManager.current != null then {identityManager.current} else {})
    }
  }

  // ---------------------------------------------------------------------------
  // start-up
  // ---------------------------------------------------------------------------

  /** The exception kinds a spawn attempt may end with. */
  datatype SpawnErrorKind =
    | JupyterProtocolError
    | JupyterWebError
    | JupyterSpawnError
    | JupyterTimeoutError
    | JupyterWebSocketError
    | HttpError
    | UnlistedError(name: string)

  /** The six kinds after which start-up moves on to the next identity. */
  predicate Retried(kind: SpawnErrorKind)
  {
    !kind.UnlistedError?
  }

  datatype SpawnOutcome = Spawned | SpawnFailed(kind: SpawnErrorKind)

  /** Why start-up failed: no identity could be claimed, or a spawn error start-up does not handle. */
  datatype StartupError = ClaimFailed(error: ClaimError) | SpawnRaised(kind: SpawnErrorKind)

  /** With unique usernames, a username's position in the pool is the one index holding it. */
  lemma PoolIndexOfUnique(manager: IdentityManager, i: nat)
    requires UniqueUsernames(manager.identities) && i < |manager.identities|
    ensures manager.PoolIndex(manager.identities[i].username) == Some(i)
  {
  }

  /**
   * After a retried spawn error: release the identity at `position` and claim
   * the first free identity after it in the pool.
   */
  method NextIdentity(manager: IdentityManager, identity: IdentityClaim, ghost position: nat)
    returns (next: Result<IdentityClaim, ClaimError>, ghost nextPosition: nat)
    requires manager.Valid() && UniqueUsernames(manager.identities) && identity in manager.claims
    requires position < |manager.identities| && manager.identities[position].username == identity.username
    modifies manager, manager.lockManager, identity
    ensures manager.Valid() && manager.lockManager.destroyed == old(manager.lockManager.destroyed)
    ensures old(manager.claims) <= manager.claims
    ensures next.Ok? ==>
      && fresh(next.value) && next.value in manager.claims && manager.current == next.value && next.value.lockValid
      && position < nextPosition < |manager.identities|
      && manager.identities[nextPosition].username == next.value.username
    ensures next.Err? ==> next.error == IdentityClaimError(NoneAvailable) && manager.current == null
  {
    ghost var heldBefore := manager.lockManager.held;
    ghost var validBefore := identity.lockValid;
    PoolIndexOfUnique(manager, position);
    next := manager.GetNextIdentity(identity);
    ghost var found := FirstFree(manager.identities, IdentityManager.Released(heldBefore, identity, validBefore), position + 1);
    nextPosition := if found.Some? then found.value else position + 1;
  }

  /**
   * The spawn loop of start-up: spawn with the claimed identity; after a
   * failure of a listed kind, release it, claim the next identity after it
   * in the pool and try again; stop at the first success, at an unlisted
   * failure, or when no later identity can be claimed.
   *
   * `tried` lists the pool positions of the identities spawned with, one per
   * spawn attempt, starting with `firstPosition` and strictly increasing.
   */
  method SpawnLoop(manager: IdentityManager, first: IdentityClaim, ghost firstPosition: nat,
                   image: NubladoImage, spawn: nat -> SpawnOutcome)
    returns (r: Result<NubladoPod, StartupError>, last: IdentityClaim, ghost tried: seq<nat>)
    requires manager.Valid() && UniqueUsernames(manager.identities)
    requires first in manager.claims && manager.current == first && first.lockValid
    requires firstPosition < |manager.identities| && manager.identities[firstPosition].username == first.username
    modifies manager, manager.lockManager, manager.claims
    ensures manager.Valid() && manager.lockManager.destroyed == old(manager.lockManager.destroyed)
    ensures 1 <= |tried| && tried[0] == firstPosition
    ensures forall k :: 0 <= k < |tried| ==> tried[k] < |manager.identities|
    ensures forall k, l :: 0 <= k < l < |tried| ==> tried[k] < tried[l]
    ensures forall k :: 0 <= k < |tried| - 1 ==> spawn(k).SpawnFailed? && Retried(spawn(k).kind)
    ensures r.Ok? ==>
      && spawn(|tried| - 1).Spawned?
      && r.value == NubladoPod(manager.identities[tried[|tried| - 1]].username, image)
      && manager.current == last && last.lockValid && last.username == r.value.username
    ensures r.Err? && r.error.SpawnRaised? ==>
      spawn(|tried| - 1) == SpawnFailed(r.error.kind) && !Retried(r.error.kind)
    ensures r.Err? && r.error.ClaimFailed? ==>
      && r.error.error == IdentityClaimError(NoneAvailable) && manager.current == null
      && spawn(|tried| - 1).SpawnFailed? && Retried(spawn(|tried| - 1).kind)
  {
    var identity := first;
    ghost var position := firstPosition;
    tried := [position];
    var nubladoPod: Option<NubladoPod> := None;
    var attempt := 0;
    while true
      invariant manager.Valid() && manager.lockManager.destroyed == old(manager.lockManager.destroyed)
      invariant identity in manager.claims && manager.current == identity && identity.lockValid
      invariant identity in old(manager.claims) || fresh(identity)
      invariant position < |manager.identities| && manager.identities[position].username == identity.username
      invariant |tried| == attempt + 1 && tried[attempt] == position && tried[0] == firstPosition
      invariant forall k :: 0 <= k < |tried| ==> tried[k] < |manager.identities|
      invariant forall k, l :: 0 <= k < l < |tried| ==> tried[k] < tried[l]
      invariant forall k :: 0 <= k < attempt ==> spawn(k).SpawnFailed? && Retried(spawn(k).kind)
      decreases |manager.identities| - position
    {
      var outcome := spawn(attempt);
      if outcome.Spawned? {
        nubladoPod := Some(NubladoPod(identity.username, image));
        break;
      }
      if !Retried(outcome.kind) {
        return Err(SpawnRaised(outcome.kind)), identity, tried;
      }
      // a listed spawn error: move on to the next identity
      var next;
      ghost var nextPosition;
      next, nextPosition := NextIdentity(manager, identity, position);
      if next.Err? {
        return Err(ClaimFailed(next.error)), identity, tried;
      }
      identity := next.value;
      position := nextPosition;
      attempt := attempt + 1;
      tried := tried + [position];
    }

    if nubladoPod.None? {
      // the loop is left only after a successful spawn: the worker error
      // for "no pod with any identity" is never raised
      assert false;
    }
    r, last := Ok(nubladoPod.value), identity;
  }

  /**
   * `startup`: open the HTTP client, note the Slack client when a webhook is
   * configured, create the identity manager over `pool` (with the lock
   * service holding `held`), claim an identity, run the spawn loop, then
   * record the pod, the logger and the Slack message factory and post the
   * start-up message.
   *
   * `tried` lists the pool positions of the identities spawned with, one per
   * spawn attempt: the first free identity, then strictly later ones only.
   */
  method Startup(ctx: WorkerContext, c: WorkerConfig, slackConfigured: bool,
                 pool: seq<IdentityModel>, held: set<string>, spawn: nat -> SpawnOutcome)
    returns (r: Result<NubladoPod, StartupError>, ghost tried: seq<nat>)
    requires ImageRefSet(c) && UniqueUsernames(pool)
    modifies ctx
    ensures ctx.httpClient && ctx.slack == (old(ctx.slack) || slackConfigured)
    ensures ctx.identityManager != null && fresh(ctx.identityManager) && fresh(ctx.identityManager.lockManager)
    ensures ctx.identityManager.Valid() && ctx.identityManager.identities == pool
    ensures !ctx.identityManager.lockManager.destroyed
    // the entries start-up sets: the pod's only after a successful spawn
    ensures ctx.Keys() == old(ctx.Keys()) + {HttpClientKey, IdentityManagerKey} + (if slackConfigured then {SlackKey} else {})
      + (if r.Ok? then {JupyterClientKey, LoggerKey} + (if ctx.slack then {MessageFactoryKey} else {}) else {})
    // the identities tried, one per spawn attempt
    ensures forall k :: 0 <= k < |tried| ==> tried[k] < |pool|
    ensures forall k, l :: 0 <= k < l < |tried| ==> tried[k] < tried[l]
    ensures |tried| > 0 ==> FirstFree(pool, held, 0) == Some(tried[0])
    ensures |tried| == 0 <==> FirstFree(pool, held, 0).None?
    ensures forall k :: 0 <= k < |tried| - 1 ==> spawn(k).SpawnFailed? && Retried(spawn(k).kind)
    // success
    ensures r.Ok? ==>
      && |tried| > 0 && spawn(|tried| - 1).Spawned?
      && r.value == NubladoPod(pool[tried[|tried| - 1]].username, StartupImage(c))
      && ctx.jupyterClient == Some(r.value) && ctx.logger
      && ctx.identityManager.current != null && ctx.identityManager.current.lockValid
      && ctx.identityManager.current.username == r.value.username
      && ctx.messageFactory == (if ctx.slack then Some(MessageFactory(r.value.username, c)) else old(ctx.messageFactory))
      && ctx.slackPosts == old(ctx.slackPosts)
           + (if ctx.slack then [CreateMessage(MessageFactory(r.value.username, c), StartedText)] else [])
    // failure
    ensures r.Err? ==>
      && ctx.jupyterClient == old(ctx.jupyterClient) && ctx.logger == old(ctx.logger)
      && ctx.messageFactory == old(ctx.messageFactory) && ctx.slackPosts == old(ctx.slackPosts)
    ensures r.Err? && r.error.SpawnRaised? ==>
      |tried| > 0 && spawn(|tried| - 1) == SpawnFailed(r.error.kind) && !Retried(r.error.kind)
    ensures r.Err? && r.error.ClaimFailed? ==>
      && r.error.error == IdentityClaimError(NoneAvailable) && ctx.identityManager.current == null
      && (|tried| > 0 ==> spawn(|tried| - 1).SpawnFailed? && Retried(spawn(|tried| - 1).kind))
  {
    var manager := OpenContext(ctx, slackConfigured, pool, held);
    r, tried := ClaimAndSpawn(manager, StartupImage(c), spawn);
    if r.Ok? {
      RecordPod(ctx, r.value, c);
    }
  }

  /**
   * Claim the first free identity of a fresh manager, then run the spawn
   * loop from it; a failed first claim propagates before any spawn.
   */
  method ClaimAndSpawn(manager: IdentityManager, image: NubladoImage, spawn: nat -> SpawnOutcome)
    returns (r: Result<NubladoPod, StartupError>, ghost tried: seq<nat>)
    requires manager.Valid() && UniqueUsernames(manager.identities)
    requires manager.current == null && manager.claims == {}
    modifies manager, manager.lockManager
    ensures manager.Valid() && manager.lockManager.destroyed == old(manager.lockManager.destroyed)
    ensures forall k :: 0 <= k < |tried| ==> tried[k] < |manager.identities|
    ensures forall k, l :: 0 <= k < l < |tried| ==> tried[k] < tried[l]
    ensures |tried| > 0 ==> FirstFree(manager.identities, old(manager.lockManager.held), 0) == Some(tried[0])
    ensures |tried| == 0 <==> FirstFree(manager.identities, old(manager.lockManager.held), 0).None?
    ensures forall k :: 0 <= k < |tried| - 1 ==> spawn(k).SpawnFailed? && Retried(spawn(k).kind)
    ensures r.Ok? ==>
      && |tried| > 0 && spawn(|tried| - 1).Spawned?
      && r.value == NubladoPod(manager.identities[tried[|tried| - 1]].username, image)
      && manager.current != null && manager.current.lockValid && manager.current.username == r.value.username
    ensures r.Err? && r.error.SpawnRaised? ==>
      |tried| > 0 && spawn(|tried| - 1) == SpawnFailed(r.error.kind) && !Retried(r.error.kind)
    ensures r.Err? && r.error.ClaimFailed? ==>
      && r.error.error == IdentityClaimError(NoneAvailable) && manager.current == null
      && (|tried| > 0 ==> spawn(|tried| - 1).SpawnFailed? && Retried(spawn(|tried| - 1).kind))
  {
    var first := manager.GetIdentity();
    if first.Err? {
      return Err(ClaimFailed(first.error)), [];
    }
    var last;
    r, last, tried := SpawnLoop(manager, first.value, FirstFree(manager.identities, old(manager.lockManager.held), 0).value,
                                image, spawn);
  }

  /**
   * The start of start-up: open the HTTP client, note the Slack client when
   * a webhook is configured, and create the identity manager over `pool`.
   */
  method OpenContext(ctx: WorkerContext, slackConfigured: bool, pool: seq<IdentityModel>, held: set<string>)
    returns (manager: IdentityManager)
    modifies ctx
    ensures ctx.httpClient && ctx.slack == (old(ctx.slack) || slackConfigured)
    ensures ctx.identityManager == manager && fresh(manager) && fresh(manager.lockManager) && manager.Valid()
    ensures manager.identities == pool && manager.current == null && manager.claims == {}
    ensures manager.lockManager.held == held && !manager.lockManager.destroyed
    ensures ctx.jupyterClient == old(ctx.jupyterClient) && ctx.logger == old(ctx.logger)
    ensures ctx.messageFactory == old(ctx.messageFactory) && ctx.slackPosts == old(ctx.slackPosts)
    ensures ctx.Keys() == old(ctx.Keys()) + {HttpClientKey, IdentityManagerKey} + (if slackConfigured then {SlackKey} else {})
  {
    ctx.httpClient := true;
    if slackConfigured {
      ctx.slack := true;
    }
    manager := IdentityManager.FromConfig(pool, held);
    ctx.identityManager := manager;
  }

  /**
   * The end of a successful start-up: store the pod's client and logger and,
   * with Slack configured, the message factory for the pod's user, then post
   * the start-up message.
   */
  method RecordPod(ctx: WorkerContext, pod: NubladoPod, c: WorkerConfig)
    modifies ctx
    ensures ctx.jupyterClient == Some(pod) && ctx.logger
    ensures ctx.httpClient == old(ctx.httpClient) && ctx.slack == old(ctx.slack)
    ensures ctx.identityManager == old(ctx.identityManager)
    ensures ctx.messageFactory == if ctx.slack then Some(MessageFactory(pod.username, c)) else old(ctx.messageFactory)
    ensures ctx.slackPosts == old(ctx.slackPosts)
      + if ctx.slack then [CreateMessage(MessageFactory(pod.username, c), StartedText)] else []
    ensures ctx.Keys() == old(ctx.Keys()) + {JupyterClientKey, LoggerKey} + (if ctx.slack then {MessageFactoryKey} else {})
  {
    ctx.jupyterClient := Some(pod);
    ctx.logger := true;
    if ctx.slack {
      var factory := MessageFactory(pod.username, c);
      ctx.messageFactory := Some(factory);
      ctx.slackPosts := ctx.slackPosts + [CreateMessage(factory, StartedText)];
    }
  }

  // ---------------------------------------------------------------------------
  // shut-down
  // ---------------------------------------------------------------------------

  /** The five clean-up steps, in the order shut-down runs them. */
  datatype ShutdownStep = StopLab | IsLabStopped | CloseIdentityManager | CloseHttpClient | CloseJupyterClient

  const ShutdownOrder: seq<ShutdownStep> := [StopLab, IsLabStopped, CloseIdentityManager, CloseHttpClient, CloseJupyterClient]

  /** Which of the external calls raise when they are made. */
  datatype ShutdownFailures = ShutdownFailures(stopLab: bool, isLabStopped: bool, httpClose: bool, jupyterClose: bool)

  /** A step of shut-down and whether it completed or its exception was caught and logged. */
  datatype StepResult = StepResult(step: ShutdownStep, completed: bool)

  /** The context entry a shut-down step reads; without it the step fails with a `KeyError`. */
  function StepEntry(step: ShutdownStep): ContextKey
  {
    match step
    case StopLab => JupyterClientKey
    case IsLabStopped => JupyterClientKey
    case CloseIdentityManager => IdentityManagerKey
    case CloseHttpClient => HttpClientKey
    case CloseJupyterClient => JupyterClientKey
  }

  /** Whether the step's own external call raises (closing the identity manager does not). */
  function StepRaises(step: ShutdownStep, failures: ShutdownFailures): bool
  {
    match step
    case StopLab => failures.stopLab
    case IsLabStopped => failures.isLabStopped
    case CloseIdentityManager => false
    case CloseHttpClient => failures.httpClose
    case CloseJupyterClient => failures.jupyterClose
  }

  /** The third shut-down step: close the identity manager when the context has one. */
  method CloseManager(ctx: WorkerContext) returns (closed: bool)
    requires ctx.identityManager != null ==> ctx.identityManager.Valid()
    modifies ctx.ManagerFrame()
    ensures closed <==> ctx.identityManager != null
    ensures ctx.identityManager != null ==>
      && ctx.identityManager.Valid() && ctx.identityManager.current == null
      && ctx.identityManager.lockManager.destroyed
      && ctx.identityManager.lockManager.held ==
           if old(ctx.identityManager.current) != null && old(ctx.identityManager.current.lockValid)
           then old(ctx.identityManager.lockManager.held) - {old(ctx.identityManager.current).uid}
           else old(ctx.identityManager.lockManager.held)
  {
    closed := false;
    if ctx.identityManager != null {
      ctx.identityManager.Close();
      closed := true;
    }
  }

  /** The end of shut-down: the shut-down message, when the context has the Slack client and the message factory. */
  method PostShutDown(ctx: WorkerContext)
    modifies ctx`slackPosts
    ensures ctx.slackPosts == old(ctx.slackPosts) +
      if ctx.Has(SlackKey) && ctx.Has(MessageFactoryKey)
      then [CreateMessage(ctx.messageFactory.value, ShutDownText)] else []
  {
    if ctx.slack && ctx.messageFactory.Some? {
      ctx.slackPosts := ctx.slackPosts + [CreateMessage(ctx.messageFactory.value, ShutDownText)];
    }
  }

  /**
   * `shutdown`: run the five clean-up steps in order, each in its own
   * `try`/`except`: a step whose context entry is missing or whose call
   * raises is logged as failed and the next step runs. Then post the
   * shut-down message when the context has both the Slack client and the
   * message factory.
   */
  method Shutdown(ctx: WorkerContext, failures: ShutdownFailures) returns (log: seq<StepResult>)
    requires ctx.identityManager != null ==> ctx.identityManager.Valid()
    modifies ctx, ctx.ManagerFrame()
    // every step is attempted, in order, and completes exactly when its own entry is there and its own call succeeds
    ensures |log| == |ShutdownOrder|
    ensures forall i :: 0 <= i < |log| ==> log[i].step == ShutdownOrder[i]
    ensures forall i :: 0 <= i < |log| ==>
      (log[i].completed <==> old(ctx.Has(StepEntry(log[i].step))) && !StepRaises(log[i].step, failures))
    ensures ctx.Keys() == old(ctx.Keys())
    ensures ctx.httpClient == old(ctx.httpClient) && ctx.slack == old(ctx.slack)
    ensures ctx.identityManager == old(ctx.identityManager) && ctx.jupyterClient == old(ctx.jupyterClient)
    ensures ctx.logger == old(ctx.logger) && ctx.messageFactory == old(ctx.messageFactory)
    ensures ctx.identityManager != null ==>
      && ctx.identityManager.Valid() && ctx.identityManager.current == null
      && ctx.identityManager.lockManager.destroyed
      && ctx.identityManager.lockManager.held ==
           if old(ctx.identityManager.current) != null && old(ctx.identityManager.current.lockValid)
           then old(ctx.identityManager.lockManager.held) - {old(ctx.identityManager.current).uid}
           else old(ctx.identityManager.lockManager.held)
    ensures ctx.slackPosts == old(ctx.slackPosts) +
      if ctx.Has(SlackKey) && ctx.Has(MessageFactoryKey)
      then [CreateMessage(ctx.messageFactory.value, ShutDownText)] else []
  {
    // the clients' stop, status and close calls are inputs: each completes or raises
    var stopped, checked, managerClosed, httpClosed, jupyterClosed := false, false, false, false, false;

    // stop_lab
    if ctx.jupyterClient.Some? && !failures.stopLab {
      stopped := true;
    }
    // is_lab_stopped
    if ctx.jupyterClient.Some? && !failures.isLabStopped {
      checked := true;
    }
    // the identity manager's close
    managerClosed := CloseManager(ctx);
    // the HTTP client's aclose
    if ctx.httpClient && !failures.httpClose {
      httpClosed := true;
    }
    // the Jupyter client's close
    if ctx.jupyterClient.Some? && !failures.jupyterClose {
      jupyterClosed := true;
    }
    log := [StepResult(StopLab, stopped), StepResult(IsLabStopped, checked),
            StepResult(CloseIdentityManager, managerClosed), StepResult(CloseHttpClient, httpClosed),
            StepResult(CloseJupyterClient, jupyterClosed)];
    forall i | 0 <= i < |log|
      ensures log[i].completed <==> old(ctx.Has(StepEntry(log[i].step))) && !StepRaises(log[i].step, failures)
    {
      assert old(ctx.Has(JupyterClientKey)) == ctx.jupyterClient.Some?;
      assert old(ctx.Has(IdentityManagerKey)) == (ctx.identityManager != null);
      assert old(ctx.Has(HttpClientKey)) == ctx.httpClient;
    }

    PostShutDown(ctx);
  }

  // ---------------------------------------------------------------------------
  // keep-alive schedule
  // ---------------------------------------------------------------------------

  /** An arq cron entry for the keep-alive task: the seconds or the minutes it runs at. */
  datatype CronJob = CronJob(seconds: Option<set<int>>, minutes: Option<set<int>>, unique: bool)

  /**
   * `cron_jobs`: one keep-alive entry every 30 seconds for the fast setting,
   * one every 15 minutes for the normal setting, and none for the others.
   */
  method CronJobs(setting: KeepAliveSetting) returns (jobs: seq<CronJob>)
    ensures |jobs| <= 1
    ensures setting == Fast ==> jobs == [CronJob(Some({0, 30}), None, false)]
    ensures setting == Normal ==> jobs == [CronJob(None, Some({0, 15, 30, 45}), false)]
    ensures jobs == [] <==> setting != Fast && setting != Normal
  {
    jobs := [];
    if setting == Fast {
      jobs := jobs + [CronJob(Some({0, 30}), None, false)];
    } else if setting == Normal {
      jobs := jobs + [CronJob(None, Some({0, 15, 30, 45}), false)];
    }
  }
}
