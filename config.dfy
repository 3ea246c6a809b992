/** `load_config` and the configuration schema of src/config.py. The parsed
    YAML document and the ENVIRONMENT variable are parameters. In the `dev`
    environment the `bot` section is replaced by `bot_test` before the
    document is validated; validation accepts a document exactly when every
    section has its fields with the right types and every id and tab length
    is positive. */
module AppConfig {

  import opened Values
  import opened CustomTypes
  import Enums

  datatype Bot = Bot(id: PositiveInt, name: string, link: string, token: string)
  datatype MessageEffect = MessageEffect(fire: string, thumbUp: string, thumbDown: string,
                                         heart: string, greeting: string, poo: string)
  datatype Owner = Owner(id: PositiveInt, name: string, link: string)
  datatype Redis = Redis(host: string, fsm: string, users: string, temp: string)
  datatype Google = Google(feedbacksAndAccessesId: string, accessesTab: string, accessesTabLength: PositiveInt,
                           contentId: string, contentTab: string, contentTabLength: PositiveInt,
                           disciplinesTabLength: PositiveInt, syllabusTab: string, serviceAccountJson: string)
  datatype LLM = LLM(apiKey: string, model: string, provider: string, embeddingModel: string)

  datatype Config = Config(
    timeZone: string, bot: Bot, botTest: Bot, messageEffect: MessageEffect, owner: Owner,
    admins: seq<PositiveInt>, superadmins: seq<PositiveInt>, redis: Redis, google: Google,
    openai: LLM, gemini: LLM, systemPrompt: string)

  // ---- field validation ----

  /** A required `str` field. */
  function StrField(d: Dict, k: string): (r: Result<string>)
    ensures r.Ok? <==> Find(d, k).Some? && Find(d, k).value.Str?
    ensures r.Ok? ==> Find(d, k) == Some(Str(r.value))
    ensures r.Err? ==> r.error == ValidationError
  {
    match Find(d, k)
    case Some(Str(s)) => Ok(s)
    case _ => Err(ValidationError)
  }

  /** A `PositiveInt` value: an integer greater than zero. */
  function Positive(v: Value): (r: Result<PositiveInt>)
    ensures r.Ok? <==> v.Num? && v.n > 0
    ensures r.Ok? ==> v == Num(r.value)
    ensures r.Err? ==> r.error == ValidationError
  {
    if v.Num? && v.n > 0 then Ok(v.n) else Err(ValidationError)
  }

  /** A required `PositiveInt` field. */
  function PositiveField(d: Dict, k: string): (r: Result<PositiveInt>)
    ensures r.Ok? <==> Find(d, k).Some? && Find(d, k).value.Num? && Find(d, k).value.n > 0
    ensures r.Ok? ==> Find(d, k) == Some(Num(r.value))
    ensures r.Err? ==> r.error == ValidationError
  {
    match Find(d, k)
    case Some(v) => Positive(v)
    case None => Err(ValidationError)
  }

  /** A `list[PositiveInt]`: every element must be positive. */
  function PositiveList(items: seq<Value>): (r: Result<seq<PositiveInt>>)
    ensures r.Ok? <==> forall i :: 0 <= i < |items| ==> Positive(items[i]).Ok?
    ensures r.Ok? ==> |r.value| == |items| && forall i :: 0 <= i < |items| ==> items[i] == Num(r.value[i])
    ensures r.Err? ==> r.error == ValidationError
    decreases |items|
  {
    if items == [] then Ok([])
    else
      var x :- Positive(items[0]);
      var xs :- PositiveList(items[1..]);
      assert forall i :: 1 <= i < |items| ==> items[i] == items[1..][i - 1];
      Ok([x] + xs)
  }

  /** A required nested section. */
  function SectionField(d: Dict, k: string): (r: Result<Dict>)
    ensures r.Ok? <==> Find(d, k).Some? && Find(d, k).value.Obj?
    ensures r.Ok? ==> Find(d, k) == Some(Obj(r.value))
    ensures r.Err? ==> r.error == ValidationError
  {
    match Find(d, k)
    case Some(Obj(fields)) => Ok(fields)
    case _ => Err(ValidationError)
  }

  /** A section `{ids: list[PositiveInt]}`. */
  function IdsField(d: Dict, k: string): (r: Result<seq<PositiveInt>>)
    ensures r.Err? ==> r.error == ValidationError
  {
    var section :- SectionField(d, k);
    match Find(section, "ids")
    case Some(List(items)) => PositiveList(items)
    case _ => Err(ValidationError)
  }

  // ---- sections ----

  /** `Bot`: a positive id and three strings. */
  function ParseBot(d: Dict): (r: Result<Bot>)
    ensures r.Ok? <==> PositiveField(d, "id").Ok? && StrField(d, "name").Ok? && StrField(d, "link").Ok? && StrField(d, "token").Ok?
    ensures r.Err? ==> r.error == ValidationError
    ensures r.Ok? ==> Find(d, "token") == Some(Str(r.value.token)) && Find(d, "name") == Some(Str(r.value.name))
    ensures r.Ok? ==> Find(d, "id") == Some(Num(r.value.id))
    ensures PositiveField(d, "id").Err? ==> r.Err?
  {
    var id :- PositiveField(d, "id");
    var name :- StrField(d, "name");
    var link :- StrField(d, "link");
    var token :- StrField(d, "token");
    Ok(Bot(id, name, link, token))
  }

  /** `MessageEffect`: six strings. */
  function ParseMessageEffect(d: Dict): (r: Result<MessageEffect>)
    ensures r.Ok? <==> && StrField(d, "fire").Ok? && StrField(d, "thumb_up").Ok? && StrField(d, "thumb_down").Ok?
                       && StrField(d, "heart").Ok? && StrField(d, "greeting").Ok? && StrField(d, "poo").Ok?
    ensures r.Err? ==> r.error == ValidationError
  {
    var fire :- StrField(d, "fire");
    var thumbUp :- StrField(d, "thumb_up");
    var thumbDown :- StrField(d, "thumb_down");
    var heart :- StrField(d, "heart");
    var greeting :- StrField(d, "greeting");
    var poo :- StrField(d, "poo");
    Ok(MessageEffect(fire, thumbUp, thumbDown, heart, greeting, poo))
  }

  /** `Owner`: a positive id and two strings. */
  function ParseOwner(d: Dict): (r: Result<Owner>)
    ensures r.Ok? <==> PositiveField(d, "id").Ok? && StrField(d, "name").Ok? && StrField(d, "link").Ok?
    ensures r.Err? ==> r.error == ValidationError
    ensures r.Ok? ==> Find(d, "id") == Some(Num(r.value.id))
    ensures PositiveField(d, "id").Err? ==> r.Err?
  {
    var id :- PositiveField(d, "id");
    var name :- StrField(d, "name");
    var link :- StrField(d, "link");
    Ok(Owner(id, name, link))
  }

  /** `Redis`: the host and the three storage URLs, all strings. The URL
      fields are named by the values of the `Database` enumeration. */
  function ParseRedis(d: Dict): (r: Result<Redis>)
    ensures r.Ok? <==> StrField(d, "host").Ok? && StrField(d, Enums.Database.FSM.Value()).Ok?
                       && StrField(d, Enums.Database.USERS.Value()).Ok? && StrField(d, Enums.Database.TEMP.Value()).Ok?
    ensures r.Err? ==> r.error == ValidationError
    ensures r.Ok? ==> Find(d, Enums.Database.FSM.Value()) == Some(Str(r.value.fsm))
    ensures r.Ok? ==> Find(d, Enums.Database.USERS.Value()) == Some(Str(r.value.users)) && Find(d, Enums.Database.TEMP.Value()) == Some(Str(r.value.temp))
  {
    var host :- StrField(d, "host");
    var fsm :- StrField(d, Enums.Database.FSM.Value());
    var users :- StrField(d, Enums.Database.USERS.Value());
    var temp :- StrField(d, Enums.Database.TEMP.Value());
    Ok(Redis(host, fsm, users, temp))
  }

  /** `Google`: six strings and three positive tab lengths. */
  function ParseGoogle(d: Dict): (r: Result<Google>)
    ensures r.Err? ==> r.error == ValidationError
    ensures PositiveField(d, "accesses_tab_length").Err? ==> r.Err?
    ensures PositiveField(d, "content_tab_length").Err? ==> r.Err?
    ensures PositiveField(d, "disciplines_tab_length").Err? ==> r.Err?
  {
    var feedbacksAndAccessesId :- StrField(d, "feedbacks_and_accesses_id");
    var accessesTab :- StrField(d, "accesses_tab");
    var accessesTabLength :- PositiveField(d, "accesses_tab_length");
    var contentId :- StrField(d, "content_id");
    var contentTab :- StrField(d, "content_tab");
    var contentTabLength :- PositiveField(d, "content_tab_length");
    var disciplinesTabLength :- PositiveField(d, "disciplines_tab_length");
    var syllabusTab :- StrField(d, "syllabus_tab");
    var serviceAccountJson :- StrField(d, "service_account_json");
    Ok(Google(feedbacksAndAccessesId, accessesTab, accessesTabLength, contentId, contentTab,
              contentTabLength, disciplinesTabLength, syllabusTab, serviceAccountJson))
  }

  /** `LLM`: four strings. */
  function ParseLLM(d: Dict): (r: Result<LLM>)
    ensures r.Ok? <==> StrField(d, "api_key").Ok? && StrField(d, "model").Ok? && StrField(d, "provider").Ok? && StrField(d, "embedding_model").Ok?
    ensures r.Err? ==> r.error == ValidationError
    ensures r.Ok? ==> Find(d, "api_key") == Some(Str(r.value.apiKey)) && Find(d, "model") == Some(Str(r.value.model))
  {
    var apiKey :- StrField(d, "api_key");
    var model :- StrField(d, "model");
    var provider :- StrField(d, "provider");
    var embeddingModel :- StrField(d, "embedding_model");
    Ok(LLM(apiKey, model, provider, embeddingModel))
  }

  /** A required section validated by `parse`. */
  function Section<T>(d: Dict, k: string, parse: Dict -> Result<T>): (r: Result<T>)
    requires forall s :: parse(s).Err? ==> parse(s).error == ValidationError
    ensures r.Err? ==> r.error == ValidationError
    ensures r.Ok? ==> SectionField(d, k).Ok? && parse(SectionField(d, k).value) == r
    ensures SectionField(d, k).Ok? ==> r == parse(SectionField(d, k).value)
  {
    var section :- SectionField(d, k);
    parse(section)
  }

  /** A required section `k` holding one `str` field, `field`: the
      `System` and `SystemPrompt` models. */
  function StrSection(d: Dict, k: string, field: string): (r: Result<string>)
    ensures r.Ok? <==> SectionField(d, k).Ok? && Find(SectionField(d, k).value, field).Some?
                       && Find(SectionField(d, k).value, field).value.Str?
    ensures r.Ok? ==> Find(SectionField(d, k).value, field) == Some(Str(r.value))
    ensures r.Err? ==> r.error == ValidationError
  {
    var section :- SectionField(d, k);
    StrField(section, field)
  }

  /** The two bot sections. */
  function ParseBots(d: Dict): (r: Result<(Bot, Bot)>)
    ensures r.Ok? <==> Section(d, "bot", ParseBot).Ok? && Section(d, "bot_test", ParseBot).Ok?
    ensures r.Ok? ==> Section(d, "bot", ParseBot) == Ok(r.value.0) && Section(d, "bot_test", ParseBot) == Ok(r.value.1)
    ensures r.Err? ==> r.error == ValidationError
  {
    var bot :- Section(d, "bot", ParseBot);
    var botTest :- Section(d, "bot_test", ParseBot);
    Ok((bot, botTest))
  }

  /** The owner and the two id lists. */
  function ParsePeople(d: Dict): (r: Result<(Owner, seq<PositiveInt>, seq<PositiveInt>)>)
    ensures r.Ok? <==> Section(d, "owner", ParseOwner).Ok? && IdsField(d, "admins").Ok? && IdsField(d, "superadmins").Ok?
    ensures r.Err? ==> r.error == ValidationError
  {
    var owner :- Section(d, "owner", ParseOwner);
    var admins :- IdsField(d, "admins");
    var superadmins :- IdsField(d, "superadmins");
    Ok((owner, admins, superadmins))
  }

  /** The sections of the external services. */
  function ParseServices(d: Dict): (r: Result<(Redis, Google, LLM, LLM)>)
    ensures r.Ok? <==> && Section(d, "redis", ParseRedis).Ok? && Section(d, "google", ParseGoogle).Ok?
                       && Section(d, "openai", ParseLLM).Ok? && Section(d, "gemini", ParseLLM).Ok?
    ensures r.Err? ==> r.error == ValidationError
  {
    var redis :- Section(d, "redis", ParseRedis);
    var google :- Section(d, "google", ParseGoogle);
    var openai :- Section(d, "openai", ParseLLM);
    var gemini :- Section(d, "gemini", ParseLLM);
    Ok((redis, google, openai, gemini))
  }

  /** The time zone, the message effects and the system prompt. */
  function ParseSettings(d: Dict): (r: Result<(string, MessageEffect, string)>)
    ensures r.Ok? <==> && StrSection(d, "system", "time_zone").Ok? && Section(d, "message_effect", ParseMessageEffect).Ok?
                       && StrSection(d, "system_prompt", "prompt").Ok?
    ensures r.Err? ==> r.error == ValidationError
  {
    var timeZone :- StrSection(d, "system", "time_zone");
    var messageEffect :- Section(d, "message_effect", ParseMessageEffect);
    var prompt :- StrSection(d, "system_prompt", "prompt");
    Ok((timeZone, messageEffect, prompt))
  }

  /** `Config(**config_data)`: every section is required and validated;
      keys the schema does not name are ignored. */
  function ParseConfig(d: Dict): (r: Result<Config>)
    ensures r.Ok? <==> ParseBots(d).Ok? && ParsePeople(d).Ok? && ParseServices(d).Ok? && ParseSettings(d).Ok?
    ensures r.Err? ==> r.error == ValidationError
    ensures r.Ok? ==> (r.value.bot, r.value.botTest) == ParseBots(d).value
  {
    var bots :- ParseBots(d);
    var people :- ParsePeople(d);
    var services :- ParseServices(d);
    var settings :- ParseSettings(d);
    Ok(Config(settings.0, bots.0, bots.1, settings.1, people.0, people.1, people.2,
              services.0, services.1, services.2, services.3, settings.2))
  }

  // ---- load_config ----

  /** `os.getenv('ENVIRONMENT', 'prod')`. */
  function Environment(variable: Option<string>): string {
    variable.GetOr("prod")
  }

  /** The bot selection: in `dev`, `config_data['bot'] = config_data['bot_test']`;
      in any other environment the document is kept as it is. */
  function SelectBot(document: Value, environment: string): (r: Result<Dict>)
    ensures r.Ok? <==> document.Obj? && (environment == "dev" ==> HasKey(document.fields, "bot_test"))
    ensures r.Err? ==> r.error == if document.Obj? then KeyError("bot_test") else TypeError
    ensures r.Ok? && environment == "dev" ==>
      && Find(r.value, "bot") == Find(document.fields, "bot_test")
      && forall k :: k != "bot" ==> Find(r.value, k) == Find(document.fields, k)
    ensures r.Ok? && environment != "dev" ==> r.value == document.fields
  {
    if !document.Obj? then Err(TypeError)
    else if environment == "dev" then
      var test :- Index(document, "bot_test");
      Ok(Put(document.fields, "bot", test))
    else Ok(document.fields)
  }

  /** `config_data['bot']['name']`, which both branches print before the
      document is validated. */
  function ShownBotName(d: Dict): Result<Value> {
    var bot :- Index(Obj(d), "bot");
    Index(bot, "name")
  }

  /** `load_config`: select the bot, print its name, then validate. A
      validation error is re-raised, so no configuration is returned. */
  method LoadConfig(document: Value, variable: Option<string>) returns (r: Result<Config>)
    ensures match SelectBot(document, Environment(variable))
      case Err(e) => r == Err(e)
      case Ok(d) =>
        match ShownBotName(d)
        case Err(e) => r == Err(e)
        case Ok(_) => r == ParseConfig(d)
  {
    var environment := variable.GetOr("prod");
    if !document.Obj? {
      return Err(TypeError);
    }
    var data := document.fields;
    if environment == "dev" {
      var test := Index(document, "bot_test");
      if test.Err? {
        return Err(test.error);
      }
      data := Put(data, "bot", test.value);
    }
    var bot := Index(Obj(data), "bot");
    if bot.Err? {
      return Err(bot.error);
    }
    var name := Index(bot.value, "name");
    if name.Err? {
      return Err(name.error);
    }
    r := ParseConfig(data);
  }

  // ---- properties ----

  /** An unset ENVIRONMENT is `prod`, and outside `dev` the document is
      validated as loaded. */
  lemma UnsetEnvironmentKeepsBot(document: Value)
    requires document.Obj?
    ensures Environment(None) == "prod"
    ensures SelectBot(document, Environment(None)) == Ok(document.fields)
  {
  }

  /** In `dev`, a configuration that validates runs the test bot. */
  lemma DevRunsTestBot(document: Value)
    requires SelectBot(document, "dev").Ok?
    requires ParseConfig(SelectBot(document, "dev").value).Ok?
    ensures var c := ParseConfig(SelectBot(document, "dev").value).value;
      c.bot == c.botTest
  {
    var d := SelectBot(document, "dev").value;
    DevBotIsTestBot(document);
    SameSectionSameBot(d, "bot", "bot_test");
  }

  /** In `dev` the selected `bot` section is the `bot_test` section. */
  lemma DevBotIsTestBot(document: Value)
    requires SelectBot(document, "dev").Ok?
    ensures var d := SelectBot(document, "dev").value;
      Find(d, "bot") == Find(d, "bot_test")
  {
    assert "bot_test" != "bot" by {
      assert |"bot_test"| != |"bot"|;
    }
  }

  /** Two keys holding the same value yield the same bot section. */
  lemma SameSectionSameBot(d: Dict, k1: string, k2: string)
    requires Find(d, k1) == Find(d, k2)
    ensures Section(d, k1, ParseBot) == Section(d, k2, ParseBot)
  {
    assert SectionField(d, k1) == SectionField(d, k2);
  }

  /** A validated configuration holds the section values of the document:
      the bot id is the number stored under `bot.id`. */
  lemma ParsedBotIdIsStored(d: Dict)
    requires ParseConfig(d).Ok?
    ensures SectionField(d, "bot").Ok?
    ensures Find(SectionField(d, "bot").value, "id") == Some(Num(ParseConfig(d).value.bot.id))
  {
    var bot := ParseBots(d).value.0;
    assert Section(d, "bot", ParseBot) == Ok(bot);
    assert ParseBot(SectionField(d, "bot").value) == Ok(bot);
  }

  /** A bot, test bot or owner id that is not a positive number makes the
      whole document invalid. */
  lemma NonPositiveIdRejected(d: Dict, section: string)
    requires section == "bot" || section == "bot_test" || section == "owner"
    requires SectionField(d, section).Ok? && PositiveField(SectionField(d, section).value, "id").Err?
    ensures ParseConfig(d) == Err(ValidationError)
  {
    var fields := SectionField(d, section).value;
    if section == "owner" {
      assert ParseOwner(fields).Err?;
      assert ParsePeople(d).Err?;
    } else {
      assert ParseBot(fields).Err?;
      assert ParseBots(d).Err?;
    }
  }

  /** A tab length that is not a positive number makes the whole document
      invalid. */
  lemma NonPositiveTabLengthRejected(d: Dict, field: string)
    requires field == "accesses_tab_length" || field == "content_tab_length" || field == "disciplines_tab_length"
    requires SectionField(d, "google").Ok? && PositiveField(SectionField(d, "google").value, field).Err?
    ensures ParseConfig(d) == Err(ValidationError)
  {
    assert ParseGoogle(SectionField(d, "google").value).Err?;
    assert ParseServices(d).Err?;
  }

  /** A non-positive admin or superadmin id makes the document invalid. */
  lemma NonPositiveAdminRejected(d: Dict, section: string, items: seq<Value>, i: nat)
    requires section == "admins" || section == "superadmins"
    requires SectionField(d, section).Ok?
    requires Find(SectionField(d, section).value, "ids") == Some(List(items))
    requires i < |items| && Positive(items[i]).Err?
    ensures ParseConfig(d) == Err(ValidationError)
  {
    assert PositiveList(items).Err?;
    assert IdsField(d, section).Err?;
    assert ParsePeople(d).Err?;
  }
}
