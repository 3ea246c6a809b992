/** The deployment checker of config_check.py. The parsed YAML document is
    a `Value` (Nil when the file is missing, empty or unreadable); each
    section validator yields a verdict and the warnings it logs, and an
    exception it raises ends the script. The log lines themselves are not
    modelled, only which warnings are issued and in what order. */
module ConfigCheck {

  import opened Values
  import opened Strings

  /** What a validator warns about without failing. */
  datatype Warning =
    | RedisHostNotDocker(host: Value)   // `redis.host` is not "redis"
    | BotsRedisUrl(urlKey: string)      // a Redis URL mentions BotsRedis
    | OpenAIModelMissing
    | TimezoneMissing

  /** A validator's result and the warnings it logged, in order. */
  datatype Verdict = Verdict(valid: bool, warnings: seq<Warning>)

  const BotFields: seq<string> := ["id", "name", "token"]
  const RedisUrlKeys: seq<string> := ["fsm", "users", "temp"]

  // ---- validate_bot_config ----

  /** The bot section is valid when `id`, `name` and `token` are all truthy;
      an absent section is the empty dict, so all three are missing. */
  function BotVerdict(config: Value): (r: Result<Verdict>)
    ensures r.Ok? <==> config.Obj? && GetOr(config.fields, "bot", Obj([])).Obj?
    ensures r.Err? ==> r.error == AttributeError
    ensures r.Ok? ==> r.value.warnings == []
  {
    var bot :- Get(config, "bot", Obj([]));
    if !bot.Obj? then Err(AttributeError)
    else Ok(Verdict(forall i :: 0 <= i < |BotFields| ==> Truthy(GetOr(bot.fields, BotFields[i], Nil)), []))
  }

  /** `validate_bot_config`: the required fields are checked in order and
      the first falsy one fails the section. */
  method ValidateBotConfig(config: Value) returns (r: Result<Verdict>)
    ensures r == BotVerdict(config)
  {
    var section := Get(config, "bot", Obj([]));
    if section.Err? {
      return Err(section.error);
    }
    var bot := section.value;
    for i := 0 to |BotFields|
      invariant i > 0 ==> bot.Obj?
      invariant bot.Obj? ==> forall j :: 0 <= j < i ==> Truthy(GetOr(bot.fields, BotFields[j], Nil))
    {
      var value := Get(bot, BotFields[i], Nil);
      if value.Err? {
        return Err(value.error);
      }
      if !Truthy(value.value) {
        return Ok(Verdict(false, []));
      }
    }
    if !bot.Obj? {
      // the loop ran at least once, so a non-dict section has already failed
      assert false;
      return Err(AttributeError);
    }
    r := Ok(Verdict(true, []));
  }

  // ---- validate_redis_config ----

  /** Python's `sub in v` for a string `sub`: a substring of a string, an
      element of a list, a key of a dict; other values are not iterable. */
  function In(sub: string, v: Value): (r: Result<bool>)
    ensures r.Err? <==> !(v.Str? || v.List? || v.Obj?)
    ensures r.Err? ==> r.error == TypeError
    ensures v.Str? ==> r == Ok(Contains(v.s, sub))
  {
    match v
    case Str(s) => Ok(Contains(s, sub))
    case List(items) => Ok(Str(sub) in items)
    case Obj(fields) => Ok(HasKey(fields, sub))
    case _ => Err(TypeError)
  }

  /** The BotsRedis test of one URL entry, which defaults to "". */
  function MentionsBotsRedis(redis: Dict, key: string): Result<bool> {
    In("BotsRedis", GetOr(redis, key, Str("")))
  }

  /** The warning the URL loop issues for one entry: one when it mentions
      BotsRedis, none otherwise. */
  function UrlWarning(redis: Dict, key: string): seq<Warning> {
    if MentionsBotsRedis(redis, key) == Ok(true) then [BotsRedisUrl(key)] else []
  }

  /** The warnings of the URL loop over `keys`, in order; the first entry
      that cannot be searched raises. */
  function UrlWarnings(redis: Dict, keys: seq<string>): (r: Result<seq<Warning>>)
    ensures r.Ok? <==> forall i :: 0 <= i < |keys| ==> MentionsBotsRedis(redis, keys[i]).Ok?
    ensures r.Ok? ==> forall i :: 0 <= i < |keys| && MentionsBotsRedis(redis, keys[i]) == Ok(true) ==>
      BotsRedisUrl(keys[i]) in r.value
    ensures r.Ok? ==> forall w :: w in r.value ==>
      exists i :: 0 <= i < |keys| && w == BotsRedisUrl(keys[i]) && MentionsBotsRedis(redis, keys[i]) == Ok(true)
    ensures r.Ok? ==> |r.value| <= |keys|
    ensures r.Err? ==> r.error == TypeError
    decreases |keys|
  {
    if keys == [] then Ok([])
    else
      var front := keys[..|keys| - 1];
      var key := keys[|keys| - 1];
      var ws :- UrlWarnings(redis, front);
      var found :- MentionsBotsRedis(redis, key);
      assert forall i :: 0 <= i < |front| ==> keys[i] == front[i];
      Ok(ws + if found then [BotsRedisUrl(key)] else [])
  }

  /** The URL loop issues one warning per entry that mentions BotsRedis, in
      the order fsm, users, temp. */
  lemma UrlWarningsInKeyOrder(redis: Dict)
    requires UrlWarnings(redis, RedisUrlKeys).Ok?
    ensures UrlWarnings(redis, RedisUrlKeys).value
      == UrlWarning(redis, "fsm") + UrlWarning(redis, "users") + UrlWarning(redis, "temp")
  {
    var keys := RedisUrlKeys;
    assert keys[..2] == ["fsm", "users"] && keys[..2][..1] == ["fsm"] && ["fsm"][..0] == [];
    assert UrlWarnings(redis, ["fsm"]).value == [] + UrlWarning(redis, "fsm");
  }

  /** The Redis section always passes. The host is warned about first,
      exactly when it is not "redis" (a missing host is None); the URL
      warnings follow. A document or section that is not a dict raises
      AttributeError, a URL entry that cannot be searched TypeError. */
  function RedisVerdict(config: Value): (r: Result<Verdict>)
    ensures var redis := if config.Obj? then GetOr(config.fields, "redis", Obj([])) else Nil;
      r.Ok? <==> config.Obj? && redis.Obj? && UrlWarnings(redis.fields, RedisUrlKeys).Ok?
    ensures var redis := if config.Obj? then GetOr(config.fields, "redis", Obj([])) else Nil;
      r.Err? ==> r.error == if config.Obj? && redis.Obj? then TypeError else AttributeError
    ensures r.Ok? ==> r.value.valid
    ensures r.Ok? ==> var redis := GetOr(config.fields, "redis", Obj([])).fields;
      var host := GetOr(redis, "host", Nil);
      && (host != Str("redis") <==> r.value.warnings != [] && r.value.warnings[0] == RedisHostNotDocker(host))
      && r.value.warnings[if host != Str("redis") then 1 else 0..] == UrlWarnings(redis, RedisUrlKeys).value
  {
    var redis :- Get(config, "redis", Obj([]));
    var host :- Get(redis, "host", Nil);
    var ws :- UrlWarnings(redis.fields, RedisUrlKeys);
    assert ws != [] ==> ws[0] in ws;
    Ok(Verdict(true, (if host != Str("redis") then [RedisHostNotDocker(host)] else []) + ws))
  }

  /** The warnings of a passing Redis check in order: the host warning if
      the host is not "redis", then one per URL mentioning BotsRedis in the
      order fsm, users, temp. */
  lemma RedisWarningsInOrder(config: Value)
    requires RedisVerdict(config).Ok?
    ensures var redis := GetOr(config.fields, "redis", Obj([])).fields;
      var host := GetOr(redis, "host", Nil);
      RedisVerdict(config).value.warnings
        == (if host != Str("redis") then [RedisHostNotDocker(host)] else [])
           + UrlWarning(redis, "fsm") + UrlWarning(redis, "users") + UrlWarning(redis, "temp")
  {
    var redis := GetOr(config.fields, "redis", Obj([])).fields;
    RedisWarningsSplit(config);
    UrlWarningsInKeyOrder(redis);
  }

  /** A passing Redis check's warnings are the host warning, if any,
      followed by the URL loop's. */
  lemma RedisWarningsSplit(config: Value)
    requires RedisVerdict(config).Ok?
    ensures var redis := GetOr(config.fields, "redis", Obj([])).fields;
      var host := GetOr(redis, "host", Nil);
      RedisVerdict(config).value.warnings
        == (if host != Str("redis") then [RedisHostNotDocker(host)] else []) + UrlWarnings(redis, RedisUrlKeys).value
  {
    var redis := GetOr(config.fields, "redis", Obj([])).fields;
    var host := GetOr(redis, "host", Nil);
    var w := RedisVerdict(config).value.warnings;
    var k := if host != Str("redis") then 1 else 0;
    assert w == w[..k] + w[k..];
  }

  /** `validate_redis_config`. */
  method ValidateRedisConfig(config: Value) returns (r: Result<Verdict>)
    ensures r == RedisVerdict(config)
  {
    var section := Get(config, "redis", Obj([]));
    if section.Err? {
      return Err(section.error);
    }
    var redis := section.value;
    var host := Get(redis, "host", Nil);
    if host.Err? {
      return Err(host.error);
    }
    var warnings := if host.value != Str("redis") then [RedisHostNotDocker(host.value)] else [];
    var urlWarnings: seq<Warning> := [];
    for i := 0 to |RedisUrlKeys|
      invariant UrlWarnings(redis.fields, RedisUrlKeys[..i]) == Ok(urlWarnings)
    {
      var prefix := RedisUrlKeys[..i + 1];
      assert prefix[..|prefix| - 1] == RedisUrlKeys[..i] && prefix[|prefix| - 1] == RedisUrlKeys[i];
      var found := MentionsBotsRedis(redis.fields, RedisUrlKeys[i]);
      if found.Err? {
        assert UrlWarnings(redis.fields, RedisUrlKeys[..i + 1]).Err?;
        assert UrlWarnings(redis.fields, RedisUrlKeys).Err? by {
          assert RedisUrlKeys[i] == RedisUrlKeys[..|RedisUrlKeys|][i];
        }
        return Err(found.error);
      }
      assert UrlWarnings(redis.fields, prefix)
        == Ok(urlWarnings + if found.value then [BotsRedisUrl(RedisUrlKeys[i])] else []);
      if found.value {
        urlWarnings := urlWarnings + [BotsRedisUrl(RedisUrlKeys[i])];
      } else {
        assert urlWarnings + [] == urlWarnings;
      }
    }
    assert RedisUrlKeys[..|RedisUrlKeys|] == RedisUrlKeys;
    r := Ok(Verdict(true, warnings + urlWarnings));
  }

  // ---- validate_openai_config and validate_system_config ----

  /** The OpenAI section is valid exactly when `api_key` is truthy; a falsy
      `model` is only warned about, and only once the key was found. */
  function OpenAIVerdict(config: Value): (r: Result<Verdict>)
    ensures r.Ok? <==> config.Obj? && GetOr(config.fields, "openai", Obj([])).Obj?
    ensures r.Err? ==> r.error == AttributeError
    ensures r.Ok? ==> var openai := GetOr(config.fields, "openai", Obj([])).fields;
      && (r.value.valid <==> Truthy(GetOr(openai, "api_key", Nil)))
      && r.value.warnings == if r.value.valid && !Truthy(GetOr(openai, "model", Nil)) then [OpenAIModelMissing] else []
  {
    var openai :- Get(config, "openai", Obj([]));
    var key :- Get(openai, "api_key", Nil);
    if !Truthy(key) then Ok(Verdict(false, []))
    else
      var model := GetOr(openai.fields, "model", Nil);
      Ok(Verdict(true, if Truthy(model) then [] else [OpenAIModelMissing]))
  }

  /** The system section always passes; a falsy timezone is warned about. */
  function SystemVerdict(config: Value): (r: Result<Verdict>)
    ensures r.Ok? <==> config.Obj? && GetOr(config.fields, "system", Obj([])).Obj?
    ensures r.Ok? ==> var system := GetOr(config.fields, "system", Obj([])).fields;
      && r.value.valid
      && (r.value.warnings == [] <==> Truthy(GetOr(system, "time_zone", Nil)))
  {
    var system :- Get(config, "system", Obj([]));
    var timezone :- Get(system, "time_zone", Nil);
    Ok(Verdict(true, if Truthy(timezone) then [] else [TimezoneMissing]))
  }

  // ---- main ----

  datatype Validator = BotCheck | RedisCheck | OpenAICheck | SystemCheck

  /** The validators `main` runs, in order. */
  const Validations: seq<Validator> := [BotCheck, RedisCheck, OpenAICheck, SystemCheck]

  function VerdictOf(v: Validator, config: Value): Result<Verdict> {
    match v
    case BotCheck => BotVerdict(config)
    case RedisCheck => RedisVerdict(config)
    case OpenAICheck => OpenAIVerdict(config)
    case SystemCheck => SystemVerdict(config)
  }

  method Validate(v: Validator, config: Value) returns (r: Result<Verdict>)
    ensures r == VerdictOf(v, config)
  {
    match v
    case BotCheck => r := ValidateBotConfig(config);
    case RedisCheck => r := ValidateRedisConfig(config);
    case OpenAICheck => r := OpenAIVerdict(config);
    case SystemCheck => r := SystemVerdict(config);
  }

  /** The results of validators run one after the other, whatever the
      earlier ones returned: valid when all are, with all their warnings in
      order; the first exception ends the run. */
  function Combine(rs: seq<Result<Verdict>>): (r: Result<Verdict>)
    ensures r.Ok? <==> forall i :: 0 <= i < |rs| ==> rs[i].Ok?
    ensures r.Ok? ==> (r.value.valid <==> forall i :: 0 <= i < |rs| ==> rs[i].value.valid)
    decreases |rs|
  {
    if rs == [] then Ok(Verdict(true, []))
    else
      var front := rs[..|rs| - 1];
      var all :- Combine(front);
      var last :- rs[|rs| - 1];
      assert forall i :: 0 <= i < |front| ==> rs[i] == front[i];
      Ok(Verdict(all.valid && last.valid, all.warnings + last.warnings))
  }

  /** What the four validators return for a document. */
  function Verdicts(config: Value): (rs: seq<Result<Verdict>>)
    ensures |rs| == |Validations|
  {
    [BotVerdict(config), RedisVerdict(config), OpenAIVerdict(config), SystemVerdict(config)]
  }

  /** The end of the script: its exit status and the warnings logged. */
  datatype Outcome = Outcome(status: int, warnings: seq<Warning>)

  function MainOutcome(config: Value): Result<Outcome> {
    if !Truthy(config) then Ok(Outcome(1, []))
    else
      var all :- Combine(Verdicts(config));
      Ok(Outcome(if all.valid then 0 else 1, all.warnings))
  }

  /** `main`: a config that did not load, or loaded falsy, exits with 1
      before any validator runs; otherwise all four validators run and the
      script exits with 1 unless every one passed. */
  method RunChecks(config: Value) returns (r: Result<Outcome>)
    ensures r == MainOutcome(config)
  {
    if !Truthy(config) {
      return Ok(Outcome(1, []));
    }
    ghost var rs := Verdicts(config);
    var allValid := true;
    var warnings: seq<Warning> := [];
    for i := 0 to |Validations|
      invariant Combine(rs[..i]) == Ok(Verdict(allValid, warnings))
    {
      var verdict := Validate(Validations[i], config);
      VerdictsInOrder(config, i);
      CombineStep(rs, i);
      if verdict.Err? {
        FirstErrorWins(rs, i);
        return Err(verdict.error);
      }
      allValid := allValid && verdict.value.valid;
      warnings := warnings + verdict.value.warnings;
    }
    assert rs[..|Validations|] == rs;
    r := Ok(Outcome(if allValid then 0 else 1, warnings));
  }

  lemma VerdictsInOrder(config: Value, i: nat)
    requires i < |Validations|
    ensures Verdicts(config)[i] == VerdictOf(Validations[i], config)
  {
  }

  /** One more result: an exception ends the run, a verdict is folded in. */
  lemma CombineStep(rs: seq<Result<Verdict>>, i: nat)
    requires i < |rs| && Combine(rs[..i]).Ok?
    ensures var all := Combine(rs[..i]).value;
      Combine(rs[..i + 1]) ==
        if rs[i].Err? then Err(rs[i].error)
        else Ok(Verdict(all.valid && rs[i].value.valid, all.warnings + rs[i].value.warnings))
    ensures forall j :: 0 <= j < i ==> rs[j].Ok?
  {
    assert rs[..i + 1][..i] == rs[..i];
    assert forall j :: 0 <= j < i ==> rs[j] == rs[..i][j];
  }

  /** When the results before `i` are all returned and result `i` raised,
      the run raises that exception. */
  lemma {:induction false} FirstErrorWins(rs: seq<Result<Verdict>>, i: nat)
    requires i < |rs| && rs[i].Err? && forall j :: 0 <= j < i ==> rs[j].Ok?
    ensures Combine(rs) == Err(rs[i].error)
    decreases |rs|
  {
    var front := rs[..|rs| - 1];
    if i < |rs| - 1 {
      assert front[i] == rs[i] && forall j :: 0 <= j < i ==> front[j] == rs[j];
      FirstErrorWins(front, i);
    } else {
      assert forall j :: 0 <= j < |front| ==> front[j] == rs[j];
    }
  }

  /** A missing bot section fails the bot check. */
  lemma MissingBotSectionFails(config: Value)
    requires config.Obj? && !HasKey(config.fields, "bot")
    ensures BotVerdict(config) == Ok(Verdict(false, []))
  {
    assert !Truthy(GetOr(Obj([]).fields, BotFields[0], Nil));
  }

  /** The bot check passes exactly when `id`, `name` and `token` are truthy. */
  lemma BotValidIff(config: Value)
    requires BotVerdict(config).Ok?
    ensures var bot := GetOr(config.fields, "bot", Obj([])).fields;
      BotVerdict(config).value.valid <==>
        Truthy(GetOr(bot, "id", Nil)) && Truthy(GetOr(bot, "name", Nil)) && Truthy(GetOr(bot, "token", Nil))
  {
    assert BotFields[0] == "id" && BotFields[1] == "name" && BotFields[2] == "token";
  }

  /** Combining four returned results. */
  lemma CombineFour(a: Result<Verdict>, b: Result<Verdict>, c: Result<Verdict>, d: Result<Verdict>)
    requires a.Ok? && b.Ok? && c.Ok? && d.Ok?
    ensures Combine([a, b, c, d]) == Ok(Verdict(a.value.valid && b.value.valid && c.value.valid && d.value.valid,
                                                a.value.warnings + b.value.warnings + c.value.warnings + d.value.warnings))
  {
    var (u, v, w, x) := (a.value.warnings, b.value.warnings, c.value.warnings, d.value.warnings);
    assert [a, b][..1] == [a] && [a][..0] == [];
    assert Combine([a]) == Ok(Verdict(a.value.valid, [] + u));
    assert Combine([a, b]) == Ok(Verdict(a.value.valid && b.value.valid, [] + u + v));
    assert [a, b, c][..2] == [a, b];
    assert Combine([a, b, c]) == Ok(Verdict(a.value.valid && b.value.valid && c.value.valid, [] + u + v + w));
    assert [a, b, c, d][..3] == [a, b, c];
    assert [] + u + v + w + x == u + v + w + x;
  }

  /** The four validators all run: the warnings of a successful run are
      those of each validator, in order, whatever their verdicts. */
  lemma NoShortCircuit(config: Value)
    requires Truthy(config)
    requires BotVerdict(config).Ok? && RedisVerdict(config).Ok?
    requires OpenAIVerdict(config).Ok? && SystemVerdict(config).Ok?
    ensures MainOutcome(config).Ok?
    ensures MainOutcome(config).value.warnings ==
      BotVerdict(config).value.warnings + RedisVerdict(config).value.warnings
      + OpenAIVerdict(config).value.warnings + SystemVerdict(config).value.warnings
  {
    CombineFour(BotVerdict(config), RedisVerdict(config), OpenAIVerdict(config), SystemVerdict(config));
  }

  /** The script passes exactly when the document is loaded, every
      validator returns, and the bot and OpenAI sections are valid: the
      Redis and system validators never fail it. */
  lemma PassesIffBotAndOpenAI(config: Value)
    ensures MainOutcome(config).Ok? && MainOutcome(config).value.status == 0 <==>
      && Truthy(config)
      && BotVerdict(config).Ok? && RedisVerdict(config).Ok?
      && OpenAIVerdict(config).Ok? && SystemVerdict(config).Ok?
      && BotVerdict(config).value.valid && OpenAIVerdict(config).value.valid
  {
    var rs := Verdicts(config);
    assert rs[0] == BotVerdict(config) && rs[1] == RedisVerdict(config);
    assert rs[2] == OpenAIVerdict(config) && rs[3] == SystemVerdict(config);
  }

  /** A falsy document exits with 1 and runs no validator. */
  lemma FalsyConfigExits(config: Value)
    requires !Truthy(config)
    ensures MainOutcome(config) == Ok(Outcome(1, []))
  {
  }
}
