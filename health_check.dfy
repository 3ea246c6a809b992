/** The health check of health_check.py: the essential secrets must be
    present in the parsed YAML document before Redis is contacted. The
    outcome of the Redis ping is a parameter. */
module HealthCheck {

  import opened Values
  import ConfigCheck

  /** `check_config`: the bot token and the OpenAI key must both be truthy;
      a missing section is the empty dict, and an exception raised by a
      lookup (a document or section that is not a dict) is caught and
      fails the check. */
  function CheckConfig(config: Value): (ok: bool)
    ensures ok <==>
      && config.Obj?
      && GetOr(config.fields, "bot", Obj([])).Obj?
      && Truthy(GetOr(GetOr(config.fields, "bot", Obj([])).fields, "token", Nil))
      && GetOr(config.fields, "openai", Obj([])).Obj?
      && Truthy(GetOr(GetOr(config.fields, "openai", Obj([])).fields, "api_key", Nil))
  {
    match Get(config, "bot", Obj([]))
    case Err(_) => false
    case Ok(bot) =>
      match Get(bot, "token", Nil)
      case Err(_) => false
      case Ok(token) =>
        if !Truthy(token) then false
        else
          match Get(config, "openai", Obj([]))
          case Err(_) => false
          case Ok(openai) =>
            match Get(openai, "api_key", Nil)
            case Err(_) => false
            case Ok(key) => Truthy(key)
  }

  /** The host `check_redis` connects to: the section's `host` when it has
      one, "redis" otherwise (a missing section is the empty dict). A
      lookup that raises means Redis is never contacted. */
  function RedisHost(config: Value): (r: Result<Value>)
    ensures r.Ok? <==> config.Obj? && GetOr(config.fields, "redis", Obj([])).Obj?
    ensures var section := if config.Obj? then GetOr(config.fields, "redis", Obj([])) else Nil;
      r.Ok? && section.Obj? && HasKey(section.fields, "host") ==> r.value == Find(section.fields, "host").value
    ensures var section := if config.Obj? then GetOr(config.fields, "redis", Obj([])) else Nil;
      r.Ok? && section.Obj? && !HasKey(section.fields, "host") ==> r.value == Str("redis")
  {
    var redis :- Get(config, "redis", Obj([]));
    Get(redis, "host", Str("redis"))
  }

  /** The end of the health check: the exit status and the host pinged, if
      Redis was contacted. */
  datatype HealthRun = HealthRun(status: int, pinged: Option<Value>)

  /** `main`: exit 1 on a document that did not load, then on a failed
      config check, then on a failed Redis check; otherwise exit 0. */
  function HealthMain(config: Value, pingSucceeds: bool): (run: HealthRun)
    ensures run.status == 0 <==> CheckConfig(config) && RedisHost(config).Ok? && pingSucceeds
    ensures run.status == 1 <==> run.status != 0
    ensures run.pinged.Some? <==> CheckConfig(config) && RedisHost(config).Ok?
    ensures run.pinged.Some? ==> run.pinged.value == RedisHost(config).value
  {
    if !Truthy(config) then HealthRun(1, None)
    else if !CheckConfig(config) then HealthRun(1, None)
    else
      match RedisHost(config)
      case Err(_) => HealthRun(1, None)
      case Ok(host) => HealthRun(if pingSucceeds then 0 else 1, Some(host))
  }

  // ---- properties ----

  /** A failed config check exits with 1 before Redis is contacted. */
  lemma ConfigFailureSkipsRedis(config: Value, pingSucceeds: bool)
    requires !CheckConfig(config)
    ensures HealthMain(config, pingSucceeds) == HealthRun(1, None)
  {
  }

  /** Every document that passes config_check.py passes `check_config`. */
  lemma DeploymentCheckImpliesHealthCheck(config: Value)
    requires ConfigCheck.MainOutcome(config).Ok? && ConfigCheck.MainOutcome(config).value.status == 0
    ensures CheckConfig(config)
  {
    ConfigCheck.PassesIffBotAndOpenAI(config);
    ConfigCheck.BotValidIff(config);
  }

  /** The converse fails: a bot section without `id` and `name` passes the
      health check but not the deployment check. */
  lemma HealthCheckDoesNotImplyDeploymentCheck()
    ensures var config := Obj([("bot", Obj([("token", Str("t"))])), ("openai", Obj([("api_key", Str("k"))]))]);
      CheckConfig(config) && !(ConfigCheck.MainOutcome(config).Ok? && ConfigCheck.MainOutcome(config).value.status == 0)
  {
    var config := Obj([("bot", Obj([("token", Str("t"))])), ("openai", Obj([("api_key", Str("k"))]))]);
    var bot := GetOr(config.fields, "bot", Obj([])).fields;
    assert !Truthy(GetOr(bot, "id", Nil));
    ConfigCheck.PassesIffBotAndOpenAI(config);
    if ConfigCheck.BotVerdict(config).Ok? {
      ConfigCheck.BotValidIff(config);
    }
  }

  /** The two scripts read a missing `redis.host` differently: the
      deployment check warns that the host is None, while the health check
      connects to "redis". A host that is present is the one both use. */
  lemma HostReadings(config: Value)
    requires ConfigCheck.RedisVerdict(config).Ok?
    ensures var section := GetOr(config.fields, "redis", Obj([])).fields;
      !HasKey(section, "host") ==>
        && RedisHost(config) == Ok(Str("redis"))
        && ConfigCheck.RedisVerdict(config).value.warnings[0] == ConfigCheck.RedisHostNotDocker(Nil)
    ensures var section := GetOr(config.fields, "redis", Obj([])).fields;
      HasKey(section, "host") && Find(section, "host").value != Str("redis") ==>
        && RedisHost(config) == Ok(Find(section, "host").value)
        && ConfigCheck.RedisVerdict(config).value.warnings[0] == ConfigCheck.RedisHostNotDocker(Find(section, "host").value)
  {
  }
}
