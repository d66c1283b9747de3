/**
 * Worker configuration: the image selector and keep-alive enumerations, the
 * settings the worker reads, the validator that ties the image selector to
 * the image reference, and the values derived from the settings (token
 * scopes, the Nublado image, the lock service's Redis configuration).
 */
module Config {

  import opened Wrappers
  import opened Strings

  /** `JupyterImageSelector`. */
  datatype ImageSelector = Recommended | Weekly | Reference

  /** `WorkerKeepAliveSetting`. */
  datatype KeepAliveSetting = Disabled | Fast | Normal | Hourly | Daily

  /** `NubladoImageClass`, the two classes this code asks for. */
  datatype ImageClass = RecommendedClass | LatestWeekly

  /** `NubladoImage`: an image chosen by class or by Docker reference. */
  datatype NubladoImage = ByClass(imageClass: ImageClass) | ByReference(reference: string)

  /** The settings of `WorkerConfig` that the worker core reads. */
  datatype WorkerConfig = WorkerConfig(
    identitiesPath: string,
    identityIndex: int,
    queueName: string,
    identityLockRedisUrl: string,
    jobTimeout: int,
    maxConcurrentJobs: int,
    workerTokenLifetime: int,
    workerTokenScopes: string,
    imageSelector: ImageSelector,
    imageReference: Option<string>,
    workerKeepalive: KeepAliveSetting)

  /** A configuration with every setting that has a default left at its default. */
  function DefaultWorkerConfig(identitiesPath: string, identityIndex: int): (c: WorkerConfig)
    ensures c.identitiesPath == identitiesPath && c.identityIndex == identityIndex
  {
    WorkerConfig(
      identitiesPath, identityIndex,
      queueName := "arq:queue",
      identityLockRedisUrl := "redis://localhost:6379/1",
      jobTimeout := 300,
      maxConcurrentJobs := 3,
      workerTokenLifetime := 2419200,
      workerTokenScopes := "exec:notebook",
      imageSelector := Recommended,
      imageReference := None,
      workerKeepalive := Normal)
  }

  const ImageRefMissing := "Set NOTEBURST_WORKER_IMAGE_REFERENCE since NOTEBURST_WORKER_IMAGE_SELECTOR is ``reference``."

  /** What the validator accepts: a reference selector comes with a reference. */
  predicate ImageRefSet(c: WorkerConfig)
  {
    c.imageSelector == Reference ==> c.imageReference.Some?
  }

  /**
   * `is_image_ref_set`: refuse a reference selector without a reference;
   * otherwise give the configuration back unchanged.
   */
  function IsImageRefSet(c: WorkerConfig): (r: Result<WorkerConfig, string>)
    ensures r.Ok? <==> ImageRefSet(c)
    ensures r.Ok? ==> r.value == c
    ensures r.Err? ==> r.error == ImageRefMissing
  {
    if c.imageReference.None? && c.imageSelector == Reference then Err(ImageRefMissing) else Ok(c)
  }

  /** The defaults pass the validator. */
  lemma DefaultsValid(path: string, index: int)
    ensures IsImageRefSet(DefaultWorkerConfig(path, index)) == Ok(DefaultWorkerConfig(path, index))
  {
  }

  // ---------------------------------------------------------------------------
  // token scopes
  // ---------------------------------------------------------------------------

  /** Keep the segments that are not empty (before stripping) and strip each of them. */
  function StripNonEmpty(segments: seq<string>): seq<string>
  {
    if |segments| == 0 then []
    else (if segments[0] != "" then [Strip(segments[0])] else []) + StripNonEmpty(segments[1..])
  }

  /**
   * `[t.strip() for t in scopes.split(",") if t]`: no scope holds a comma,
   * there is at most one scope per comma-separated segment, and an empty
   * setting has none.
   */
  function ParseScopes(scopes: string): (r: seq<string>)
    ensures forall k :: 0 <= k < |r| ==> ',' !in r[k]
    ensures |r| <= |Split(scopes, ',')|
    ensures scopes == "" ==> r == []
  {
    SplitNoSeparator(scopes, ',');
    StripNonEmptyShape(Split(scopes, ','));
    StripNonEmpty(Split(scopes, ','))
  }

  /** `parsed_worker_token_scopes`: the configured scopes, parsed. */
  function ParsedWorkerTokenScopes(c: WorkerConfig): (r: seq<string>)
    ensures forall k :: 0 <= k < |r| ==> ',' !in r[k]
    ensures c.workerTokenScopes == "" ==> r == []
  {
    ParseScopes(c.workerTokenScopes)
  }

  /** A scope as it would be written in the setting: not empty, no comma, no surrounding white space. */
  predicate CleanScope(s: string)
  {
    |s| > 0 && ',' !in s && !IsSpace(s[0]) && !IsSpace(s[|s| - 1])
  }

  lemma StripClean(s: string)
    requires |s| > 0 && !IsSpace(s[0]) && !IsSpace(s[|s| - 1])
    ensures Strip(s) == s
  {
    assert TrimLeft(s) == s;
    assert TrimRight(s) == s;
  }

  lemma {:induction false} StripNonEmptyClean(scopes: seq<string>)
    requires forall k :: 0 <= k < |scopes| ==> CleanScope(scopes[k])
    ensures StripNonEmpty(scopes) == scopes
  {
    if |scopes| > 0 {
      StripClean(scopes[0]);
      StripNonEmptyClean(scopes[1..]);
      assert scopes == [scopes[0]] + scopes[1..];
    }
  }

  /**
   * Writing clean scopes comma-separated and parsing the text gives back the
   * same scopes in the same order.
   */
  lemma ParseScopesOfJoin(scopes: seq<string>)
    requires |scopes| >= 1
    requires forall k :: 0 <= k < |scopes| ==> CleanScope(scopes[k])
    ensures ParseScopes(Join(scopes, ',')) == scopes
  {
    SplitJoin(scopes, ',');
    StripNonEmptyClean(scopes);
  }

  /** Every parsed scope is free of commas, and there are never more scopes than segments. */
  lemma {:induction false} StripNonEmptyShape(segments: seq<string>)
    requires forall k :: 0 <= k < |segments| ==> ',' !in segments[k]
    ensures |StripNonEmpty(segments)| <= |segments|
    ensures forall k :: 0 <= k < |StripNonEmpty(segments)| ==> ',' !in StripNonEmpty(segments)[k]
  {
    if |segments| > 0 {
      StripNonEmptyShape(segments[1..]);
      StripChars(segments[0]);
    }
  }

  /** The default setting "exec:notebook" parses to the single scope "exec:notebook". */
  lemma DefaultScopes(path: string, index: int)
    ensures ParsedWorkerTokenScopes(DefaultWorkerConfig(path, index)) == ["exec:notebook"]
  {
    ParseScopesOfJoin(["exec:notebook"]);
  }

  /**
   * The emptiness test looks at the segment before it is stripped, so a
   * segment of blanks after a scope survives as an empty scope (for example
   * "exec:notebook, " parses to ["exec:notebook", ""]).
   */
  lemma BlankSegmentGivesEmptyScope(scope: string, blank: string)
    requires CleanScope(scope)
    requires |blank| > 0 && forall k :: 0 <= k < |blank| ==> IsSpace(blank[k])
    ensures ParseScopes(scope + "," + blank) == [scope, ""]
  {
    var parts := [scope, blank];
    assert ',' !in blank by {
      assert !IsSpace(',');
    }
    assert Join(parts, ',') == scope + "," + blank;
    SplitJoin(parts, ',');
    StripClean(scope);
    StripAllSpace(blank);
    assert StripNonEmpty(parts[1..]) == [""] + StripNonEmpty([]);
  }

  /** An empty segment, unlike a blank one, is dropped: "exec:notebook," parses to ["exec:notebook"]. */
  lemma EmptySegmentDropped(scope: string)
    requires CleanScope(scope)
    ensures ParseScopes(scope + ",") == [scope]
  {
    var parts := [scope, ""];
    assert Join(parts, ',') == scope + ",";
    SplitJoin(parts, ',');
    StripClean(scope);
    assert StripNonEmpty(parts[1..]) == [];
  }

  // ---------------------------------------------------------------------------
  // image and lock service
  // ---------------------------------------------------------------------------

  /** `nublado_image`: the image the configured selector asks for. */
  function NubladoImageOf(c: WorkerConfig): (image: NubladoImage)
    requires ImageRefSet(c)
    ensures c.imageSelector == Recommended <==> image == ByClass(RecommendedClass)
    ensures c.imageSelector == Weekly <==> image == ByClass(LatestWeekly)
    ensures c.imageSelector == Reference <==> image.ByReference?
    ensures image.ByReference? ==> Some(image.reference) == c.imageReference
  {
    match c.imageSelector
    case Recommended => ByClass(RecommendedClass)
    case Weekly => ByClass(LatestWeekly)
    case Reference => ByReference(c.imageReference.value)
  }

  /** `aioredlock_redis_config`: a one-element list holding the lock service URL. */
  function AioredlockRedisConfig(c: WorkerConfig): (urls: seq<string>)
    ensures |urls| == 1 && urls[0] == c.identityLockRedisUrl
  {
    [c.identityLockRedisUrl]
  }
}
