/** The queue's Redis connection settings, derived from the Redis URL setting. */
module BaseConfig {

  import opened Wrappers
  import opened Strings

  /** The parts of a parsed Redis URL that the settings read. */
  datatype RedisUrl = RedisUrl(host: Option<string>, port: Option<int>, path: Option<string>)

  /** arq's `RedisSettings`, the three fields set here. */
  datatype RedisSettings = RedisSettings(host: string, port: int, database: int)

  /** The default setting "redis://localhost:6379/1", as its parts. */
  const DefaultRedisUrl := RedisUrl(Some("localhost"), Some(6379), Some("/1"))

  /** Python's `s.lstrip("/")`. */
  function LStripSlashes(s: string): (r: string)
    ensures |r| <= |s| && r == s[|s| - |r|..]
    ensures |r| > 0 ==> r[0] != '/'
    ensures forall k :: 0 <= k < |s| - |r| ==> s[k] == '/'
  {
    if |s| > 0 && s[0] == '/' then LStripSlashes(s[1..]) else s
  }

  /** Python's truth value of an optional string or number: present and not empty or zero. */
  predicate TruthyString(s: Option<string>) { s.Some? && s.value != "" }
  predicate TruthyInt(i: Option<int>) { i.Some? && i.value != 0 }

  /**
   * `arq_redis_settings`: the URL's host or "localhost", its port or 6379,
   * and as database the integer the path spells once its leading slashes are
   * removed, or 0 when there is no path. A path that does not spell an
   * integer raises `ValueError`.
   */
  function ArqRedisSettings(url: RedisUrl): (r: Result<RedisSettings, string>)
    ensures r.Err? <==> TruthyString(url.path) && ParseInt(LStripSlashes(url.path.value)).None?
    ensures r.Ok? ==> r.value.host == (if TruthyString(url.host) then url.host.value else "localhost")
    ensures r.Ok? ==> r.value.port == (if TruthyInt(url.port) then url.port.value else 6379)
    ensures r.Ok? && !TruthyString(url.path) ==> r.value.database == 0
    ensures r.Ok? && TruthyString(url.path) ==> Some(r.value.database) == ParseInt(LStripSlashes(url.path.value))
  {
    var host := if TruthyString(url.host) then url.host.value else "localhost";
    var port := if TruthyInt(url.port) then url.port.value else 6379;
    if TruthyString(url.path) then
      match ParseInt(LStripSlashes(url.path.value))
      case Some(database) => Ok(RedisSettings(host, port, database))
      case None => Err("ValueError: invalid literal for int()")
    else Ok(RedisSettings(host, port, 0))
  }

  /** A path of one or more slashes followed by the decimal text of `n` selects database `n`. */
  lemma {:induction false} DatabaseFromPath(host: Option<string>, port: Option<int>, slashes: nat, n: nat)
    requires slashes >= 1
    ensures ArqRedisSettings(RedisUrl(host, port, Some(seq(slashes, _ => '/') + NatToString(n)))).Ok?
    ensures ArqRedisSettings(RedisUrl(host, port, Some(seq(slashes, _ => '/') + NatToString(n)))).value.database == n
  {
    var digits := NatToString(n);
    var path := seq(slashes, _ => '/') + digits;
    LStripSlashesOfPrefix(slashes, digits);
    DigitsValueOfNatToString(n);
  }

  lemma {:induction false} LStripSlashesOfPrefix(slashes: nat, rest: string)
    requires |rest| > 0 ==> rest[0] != '/'
    ensures LStripSlashes(seq(slashes, _ => '/') + rest) == rest
  {
    if slashes > 0 {
      var s := seq(slashes, _ => '/') + rest;
      assert s[1..] == seq(slashes - 1, _ => '/') + rest;
      LStripSlashesOfPrefix(slashes - 1, rest);
    } else {
      assert seq(slashes, _ => '/') + rest == rest;
    }
  }

  /** The default URL gives localhost, port 6379 and database 1. */
  lemma DefaultSettings()
    ensures ArqRedisSettings(DefaultRedisUrl) == Ok(RedisSettings("localhost", 6379, 1))
  {
    assert "/1"[0] == '/' && "/1"[1..] == "1" && "1"[0] != '/';
    assert LStripSlashes("/1") == LStripSlashes("1") == "1";
    assert DigitsValue("1") == 1 by {
      assert "1"[..0] == "";
    }
    assert ParseInt("1") == Some(1);
  }

  /** A path of slashes alone strips to "", which `int` refuses. */
  lemma SlashOnlyPathIsError(host: Option<string>, port: Option<int>)
    ensures ArqRedisSettings(RedisUrl(host, port, Some("/"))).Err?
  {
    assert LStripSlashes("/") == LStripSlashes("");
  }

  /** A path that is not numeric, such as "/db", is an error. */
  lemma NonNumericPathIsError(host: Option<string>, port: Option<int>, name: string)
    requires |name| > 0 && !IsDigit(name[0]) && name[0] != '/' && name[0] != '+' && name[0] != '-'
    ensures ArqRedisSettings(RedisUrl(host, port, Some("/" + name))).Err?
  {
    LStripSlashesOfPrefix(1, name);
    assert seq(1, _ => '/') + name == "/" + name;
  }
}
