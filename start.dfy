/** The handlers of src/handlers/start.py: `/start` authorises the user
    against the teachers' roster and starts the feedback dialog, and the
    framework's unknown-intent and unknown-state errors restart it. The
    roster's sheet values, the aggregated start data (None when
    `get_data_for_dialog` raised), the owner's contact and the Redis URLs
    are parameters; the actions recorded and the replies are returned as
    effects, in order. */
module StartHandlers {

  import opened Values
  import opened Enums
  import opened States
  import opened CustomTypes
  import opened GoogleQueries
  import opened Effects
  import opened FeedbackDialog

  /** `get_current_state`: every dialog starts at the first step. */
  function GetCurrentState(userId: int): (s: Step)
    ensures s == Steps[0] && Previous(s).None?
  {
    DISCIPLINE
  }

  /** `set([teacher.id for teacher in teachers])`. */
  function TeacherIds(teachers: seq<Teacher>): (ids: set<int>)
    ensures forall id :: id in ids <==> exists i :: 0 <= i < |teachers| && teachers[i].id == id
  {
    set i | 0 <= i < |teachers| :: teachers[i].id
  }

  /** The owner's contact shown to a user who is not a teacher. */
  datatype Owner = Owner(name: string, link: string)

  /** `start_dialog` with its defaults: no start data, a reset stack and a
      message that replaces the previous one. */
  method StartDialog(m: DialogManager, s: Step, startData: Value := Nil,
                     mode: StartMode := RESET_STACK, show: ShowMode := DELETE_AND_SEND)
      returns (r: Result<()>)
    modifies m
    ensures m.state == s && m.startData == startData && m.mode == mode && m.show == show
    ensures r.Ok? <==> Index(startData, ForGeminiKey).Ok?
    ensures r.Err? ==> r.error == Index(startData, ForGeminiKey).error
    ensures m.dialogData == if r.Ok? then [(ForGeminiKey, Index(startData, ForGeminiKey).value)] else []
    ensures m.shared == r.Ok? && m.Sharing()
    ensures m.middleware == old(m.middleware)
  {
    r := m.Start(s, startData, mode, show);
  }

  /** `process_start`. A roster that cannot be read fails before anything
      happens. Otherwise START is recorded first; a user whose id is not a
      roster id is answered with the owner's contact and no dialog starts;
      a teacher's dialog starts at DISCIPLINE with a reset stack and the
      aggregated start data. When the aggregation raised, `start_data` is
      unbound when `start_dialog` is reached. */
  method ProcessStart(m: DialogManager, userId: int, values: Option<seq<seq<string>>>,
                      aggregated: Option<Value>, owner: Owner)
      returns (r: Result<()>, effects: seq<Effect>)
    modifies m
    ensures ParseTeachers(values).Err? ==>
      r == Err(ParseTeachers(values).error) && effects == [] && unchanged(m)
    ensures ParseTeachers(values).Ok? && userId !in TeacherIds(ParseTeachers(values).value) ==>
      && r == Ok(())
      && effects == [LoggedAction(START), Answered(NotTeacher(owner.name, owner.link))]
      && unchanged(m)
    ensures ParseTeachers(values).Ok? && userId in TeacherIds(ParseTeachers(values).value) && aggregated.None? ==>
      r == Err(UnboundLocalError) && effects == [LoggedAction(START)] && unchanged(m)
    ensures ParseTeachers(values).Ok? && userId in TeacherIds(ParseTeachers(values).value) && aggregated.Some? ==>
      && effects == [LoggedAction(START)]
      && m.state == DISCIPLINE && m.startData == aggregated.value
      && m.mode == RESET_STACK && m.show == DELETE_AND_SEND
      && (r.Ok? <==> Index(aggregated.value, ForGeminiKey).Ok?)
      && (r.Err? ==> r.error == Index(aggregated.value, ForGeminiKey).error)
      && m.dialogData == (if r.Ok? then [(ForGeminiKey, Index(aggregated.value, ForGeminiKey).value)] else [])
      && m.shared == r.Ok? && m.Sharing()
      && m.middleware == old(m.middleware)
  {
    var teachers := ParseTeachers(values);
    if teachers.Err? {
      return Err(teachers.error), [];
    }
    var ids := TeacherIds(teachers.value);
    effects := [LoggedAction(START)];
    if userId !in ids {
      effects := effects + [Answered(NotTeacher(owner.name, owner.link))];
      r := Ok(());
    } else {
      var current := GetCurrentState(userId);
      if aggregated.None? {
        return Err(UnboundLocalError), effects;
      }
      r := StartDialog(m, current, aggregated.value);
    }
  }

  /** `handle_error_and_restart`. The users and temp storages are written
      into the middleware data, the translator for the user's language is
      taken from the hub stored under `hubKey` (a missing hub has no
      `get_translator_by_locale`), RESTART is recorded and the dialog is
      started at DISCIPLINE without start data, which `on_dialog_start`
      cannot subscript. */
  method HandleErrorAndRestart(m: DialogManager, userId: int, usersUrl: string, tempUrl: string,
                               languageCode: string, hubKey: string)
      returns (r: Result<()>, effects: seq<Effect>)
    modifies m
    ensures var mw := old(m.middleware)[USERS.Value() := RedisStorage(usersUrl)][TEMP.Value() := RedisStorage(tempUrl)];
      if hubKey in mw && mw[hubKey] == TranslatorHub then
        && m.middleware == mw["i18n" := Translator(languageCode)]
        && effects == [LoggedAction(RESTART)]
        && r == Err(TypeError)
        && m.state == DISCIPLINE && m.startData == Nil && m.dialogData == []
        && m.mode == RESET_STACK && m.show == DELETE_AND_SEND && !m.shared
      else
        && m.middleware == mw
        && effects == [] && r == Err(AttributeError)
        && m.state == old(m.state) && m.startData == old(m.startData) && m.dialogData == old(m.dialogData)
        && m.mode == old(m.mode) && m.show == old(m.show) && m.shared == old(m.shared)
  {
    m.middleware := m.middleware[USERS.Value() := RedisStorage(usersUrl)];
    m.middleware := m.middleware[TEMP.Value() := RedisStorage(tempUrl)];
    if hubKey !in m.middleware || m.middleware[hubKey] != TranslatorHub {
      return Err(AttributeError), [];
    }
    m.middleware := m.middleware["i18n" := Translator(languageCode)];
    effects := [LoggedAction(RESTART)];
    var current := GetCurrentState(userId);
    r := StartDialog(m, current);
  }

  /** `on_unknown_intent`. */
  method OnUnknownIntent(m: DialogManager, userId: int, usersUrl: string, tempUrl: string,
                         languageCode: string, hubKey: string)
      returns (r: Result<()>, effects: seq<Effect>)
    modifies m
    ensures var mw := old(m.middleware)[USERS.Value() := RedisStorage(usersUrl)][TEMP.Value() := RedisStorage(tempUrl)];
      if hubKey in mw && mw[hubKey] == TranslatorHub then
        && m.middleware == mw["i18n" := Translator(languageCode)]
        && effects == [LoggedAction(RESTART)]
        && r == Err(TypeError)
        && m.state == DISCIPLINE && m.startData == Nil && m.dialogData == []
        && m.mode == RESET_STACK && m.show == DELETE_AND_SEND && !m.shared
      else
        && m.middleware == mw
        && effects == [] && r == Err(AttributeError)
        && m.state == old(m.state) && m.startData == old(m.startData) && m.dialogData == old(m.dialogData)
        && m.mode == old(m.mode) && m.show == old(m.show) && m.shared == old(m.shared)
  {
    r, effects := HandleErrorAndRestart(m, userId, usersUrl, tempUrl, languageCode, hubKey);
  }

  /** `on_unknown_state`: the same restart as `on_unknown_intent`. */
  method OnUnknownState(m: DialogManager, userId: int, usersUrl: string, tempUrl: string,
                        languageCode: string, hubKey: string)
      returns (r: Result<()>, effects: seq<Effect>)
    modifies m
    ensures var mw := old(m.middleware)[USERS.Value() := RedisStorage(usersUrl)][TEMP.Value() := RedisStorage(tempUrl)];
      if hubKey in mw && mw[hubKey] == TranslatorHub then
        && m.middleware == mw["i18n" := Translator(languageCode)]
        && effects == [LoggedAction(RESTART)]
        && r == Err(TypeError)
        && m.state == DISCIPLINE && m.startData == Nil && m.dialogData == []
        && m.mode == RESET_STACK && m.show == DELETE_AND_SEND && !m.shared
      else
        && m.middleware == mw
        && effects == [] && r == Err(AttributeError)
        && m.state == old(m.state) && m.startData == old(m.startData) && m.dialogData == old(m.dialogData)
        && m.mode == old(m.mode) && m.show == old(m.show) && m.shared == old(m.shared)
  {
    r, effects := HandleErrorAndRestart(m, userId, usersUrl, tempUrl, languageCode, hubKey);
  }

  // ---- properties ----

  /** A user is authorised exactly when some row after the header of the
      roster carries the user's id. */
  lemma AuthorisedIffRosterRow(values: Option<seq<seq<string>>>, userId: int)
    requires ParseTeachers(values).Ok?
    ensures userId in TeacherIds(ParseTeachers(values).value) <==>
      exists i :: 1 <= i < |values.value| && ParsePositiveInt(values.value[i][1]) == Ok(userId)
  {
    var rows := values.value;
    if rows != [] {
      var ts := ParseTeachers(values).value;
      assert ts == ParseRows(rows[1..]).value;
      if userId in TeacherIds(ts) {
        var i :| 0 <= i < |ts| && ts[i].id == userId;
        assert rows[1..][i] == rows[i + 1];
        assert ParseTeacher(rows[i + 1]) == Ok(ts[i]);
      }
      if exists i :: 1 <= i < |rows| && ParsePositiveInt(rows[i][1]) == Ok(userId) {
        var i :| 1 <= i < |rows| && ParsePositiveInt(rows[i][1]) == Ok(userId);
        assert rows[1..][i - 1] == rows[i];
        assert ParseTeacher(rows[i]) == Ok(ts[i - 1]);
      }
    }
  }
}
