/** The feedback dialog of src/dialogs/feedback.py. A `DialogManager` holds
    one user's dialog context: the current step, the mutable `dialog_data`
    dictionary, the `start_data` catalog the dialog was started with
    (discipline id -> {name, syllabus, task id -> {name, task_description}},
    plus a `for_gemini` entry) and the middleware data of the event. The
    window getters are pure functions of that context; the click handlers
    and the framework's `start` are methods that update it in place. */
module FeedbackDialog {

  import opened Values
  import opened Strings
  import opened Enums
  import opened States
  import opened Effects

  /** The framework's start modes and show modes. */
  datatype StartMode = NORMAL | RESET_STACK | NEW_STACK
  datatype ShowMode = AUTO | EDIT | SEND | DELETE_AND_SEND | NO_UPDATE

  /** The middleware data entries the handlers write. */
  datatype Middleware = RedisStorage(url: string) | Translator(locale: string) | TranslatorHub | Other

  /** The default of the dialog's lookups, `DialogDataKeys.UNKNOWN`. */
  const Unknown: Value := Str(UnknownKey)

  // ---- window getters ----

  /** The buttons of a `Select`: one `(v.get("name", "None"), k)` pair per
      entry `(k, v)`, in order. */
  function ItemButtons(items: Dict): (r: Result<seq<(Value, string)>>)
    ensures r.Ok? <==> forall i :: 0 <= i < |items| ==> items[i].1.Obj?
    ensures r.Err? ==> r.error == AttributeError
    ensures r.Ok? ==> |r.value| == |items| && forall i :: 0 <= i < |items| ==>
      r.value[i] == (GetOr(items[i].1.fields, "name", Str("None")), items[i].0)
    decreases |items|
  {
    if items == [] then Ok([])
    else
      var name :- Get(items[0].1, "name", Str("None"));
      var rest :- ItemButtons(items[1..]);
      assert forall i :: 1 <= i < |items| ==> items[i] == items[1..][i - 1];
      Ok([(name, items[0].0)] + rest)
  }

  /** `get_disciplines`: every top-level key of `start_data` is offered. */
  function Disciplines(startData: Value): (r: Result<seq<(Value, string)>>)
    ensures !startData.Obj? ==> r == Err(AttributeError)
  {
    if startData.Obj? then ItemButtons(startData.fields) else Err(AttributeError)
  }

  /** The keys that contain "task", in order. */
  function TaskKeys(ks: seq<string>): (r: seq<string>)
    ensures forall k :: k in r <==> k in ks && Contains(k, "task")
    decreases |ks|
  {
    if ks == [] then []
    else if Contains(ks[0], "task") then [ks[0]] + TaskKeys(ks[1..])
    else TaskKeys(ks[1..])
  }

  /** The entries of a catalog entry whose key contains "task", in order. */
  function TaskEntries(items: Dict): (r: Dict)
    ensures forall e :: e in r <==> e in items && Contains(e.0, "task")
    ensures Keys(r) == TaskKeys(Keys(items))
    decreases |items|
  {
    if items == [] then []
    else
      assert Keys(items) == [items[0].0] + Keys(items[1..]);
      var rest := TaskEntries(items[1..]);
      if Contains(items[0].0, "task") then
        assert Keys([items[0]] + rest) == [items[0].0] + Keys(rest);
        [items[0]] + rest
      else rest
  }

  /** The task buttons of one catalog entry: the buttons of its entries
      whose key contains "task", so for each such key, in order, the pair of
      its entry's name ("None" if it has none) and the key. Every task entry
      must be a dict. */
  function TaskItems(items: Dict): (r: Result<seq<(Value, string)>>)
    ensures r == ItemButtons(TaskEntries(items))
    ensures r.Ok? <==> forall i :: 0 <= i < |items| && Contains(items[i].0, "task") ==> items[i].1.Obj?
    decreases |items|
  {
    if items == [] then Ok([])
    else
      var entries := TaskEntries(items[1..]);
      if Contains(items[0].0, "task") then
        assert TaskEntries(items) == [items[0]] + entries;
        assert ([items[0]] + entries)[1..] == entries;
        var name :- Get(items[0].1, "name", Str("None"));
        var rest :- TaskItems(items[1..]);
        Ok([(name, items[0].0)] + rest)
      else
        assert TaskEntries(items) == entries;
        TaskItems(items[1..])
  }

  /** The task buttons in detail: one per key containing "task", in order,
      named by its entry's "name" ("None" if it has none). */
  lemma TaskButtonsNamed(items: Dict)
    requires TaskItems(items).Ok?
    ensures var ts := TaskItems(items).value;
      && |ts| == |TaskKeys(Keys(items))|
      && forall i :: 0 <= i < |ts| ==> ts[i].1 == TaskKeys(Keys(items))[i]
                                       && ts[i].0 == GetOr(TaskEntries(items)[i].1.fields, "name", Str("None"))
  {
    var es := TaskEntries(items);
    assert forall i :: 0 <= i < |es| ==> Keys(es)[i] == es[i].0;
  }

  /** `get_tasks`: the tasks of the discipline whose id `dialog_data` holds,
      or of the entry "unknown" when it holds none. It raises TypeError for
      an unhashable id and AttributeError when `start_data` or the selected
      entry is not a dict or a task entry is not a dict. */
  function Tasks(dialogData: Dict, startData: Value): (r: Result<seq<(Value, string)>>)
    ensures var id := GetOr(dialogData, DisciplineIdKey, Unknown);
      r.Ok? <==> startData.Obj? && Hashable(id) && Lookup(startData.fields, id, Obj([])).Obj?
                 && TaskItems(Lookup(startData.fields, id, Obj([])).fields).Ok?
    ensures var id := GetOr(dialogData, DisciplineIdKey, Unknown);
      r.Err? ==> r.error == if startData.Obj? && !Hashable(id) then TypeError else AttributeError
    ensures !startData.Obj? ==> r == Err(AttributeError)
  {
    var current := GetOr(dialogData, DisciplineIdKey, Unknown);
    var entry :- GetBy(startData, current, Obj([]));
    if entry.Obj? then TaskItems(entry.fields) else Err(AttributeError)
  }

  /** `get_data_for_output`: the text the OUTPUT window shows, which is the
      teacher's stored `feedback_text`, "unknown" if none. */
  function OutputText(dialogData: Dict): (r: Result<Value>)
    ensures r.Ok? <==> GetOr(dialogData, ForGeminiKey, Obj([])).Obj?
    ensures !HasKey(dialogData, ForGeminiKey) ==> r == Ok(Unknown)
    ensures r.Ok? && HasKey(dialogData, ForGeminiKey) ==>
      r.value == GetOr(Find(dialogData, ForGeminiKey).value.fields, FeedbackTextKey, Unknown)
  {
    Get(GetOr(dialogData, ForGeminiKey, Obj([])), FeedbackTextKey, Unknown)
  }

  /** The four values `dialog_get_data` copies into `for_gemini`. */
  datatype GeminiFields = GeminiFields(disciplineName: Value, taskName: Value, taskDescription: Value, syllabus: Value)

  /** The lookups of `dialog_get_data`, each defaulting to "unknown": the
      two names come from `dialog_data`, the task description from the
      selected task's entry and the syllabus from the selected discipline's
      entry. They raise TypeError for an unhashable discipline or task id
      and AttributeError when a looked-up entry is not a dict. */
  function Lookups(dialogData: Dict, startData: Value): (r: Result<GeminiFields>)
    ensures var id := GetOr(dialogData, DisciplineIdKey, Unknown);
      var taskId := GetOr(dialogData, TaskIdKey, Unknown);
      var entry := if startData.Obj? then Lookup(startData.fields, id, Obj([])) else Obj([]);
      r.Ok? <==> startData.Obj? && Hashable(id) && entry.Obj? && Hashable(taskId)
                 && Lookup(entry.fields, taskId, Obj([])).Obj?
    ensures var id := GetOr(dialogData, DisciplineIdKey, Unknown);
      var taskId := GetOr(dialogData, TaskIdKey, Unknown);
      var entry := if startData.Obj? then Lookup(startData.fields, id, Obj([])) else Obj([]);
      r.Err? ==> r.error == if startData.Obj? && (!Hashable(id) || (entry.Obj? && !Hashable(taskId))) then TypeError else AttributeError
    ensures !startData.Obj? ==> r == Err(AttributeError)
    ensures r.Ok? ==> r.value.disciplineName == GetOr(dialogData, DisciplineNameKey, Unknown)
    ensures r.Ok? ==> r.value.taskName == GetOr(dialogData, TaskNameKey, Unknown)
  {
    var disciplineName := GetOr(dialogData, DisciplineNameKey, Unknown);
    var disciplineId := GetOr(dialogData, DisciplineIdKey, Unknown);
    var taskName := GetOr(dialogData, TaskNameKey, Unknown);
    var taskId := GetOr(dialogData, TaskIdKey, Unknown);
    var discipline :- GetBy(startData, disciplineId, Obj([]));
    var task :- GetBy(discipline, taskId, Obj([]));
    var description :- Get(task, TaskDescriptionKey, Unknown);
    // the task lookup succeeded, so `discipline` is a dict and this `.get` cannot fail
    var syllabus := GetOr(discipline.fields, SyllabusKey, Unknown);
    Ok(GeminiFields(disciplineName, taskName, description, syllabus))
  }

  function GeminiPairs(f: GeminiFields): seq<(string, Value)> {
    [(DisciplineNameKey, f.disciplineName), (TaskNameKey, f.taskName),
     (TaskDescriptionKey, f.taskDescription), (SyllabusKey, f.syllabus)]
  }

  /** The keys the merge writes, in the order it writes them. */
  const MergedKeys: seq<string> := [DisciplineNameKey, TaskNameKey, TaskDescriptionKey, SyllabusKey]

  lemma GeminiPairsKeys(f: GeminiFields)
    ensures Keys(GeminiPairs(f)) == MergedKeys
  {
    var ks := Keys(GeminiPairs(f));
    assert ks[0] == DisciplineNameKey && ks[1] == TaskNameKey && ks[2] == TaskDescriptionKey && ks[3] == SyllabusKey;
  }

  /** `dialog_data[for_gemini].update({...})`. */
  function Merge(dialogData: Dict, f: GeminiFields): (r: Result<Dict>)
    ensures r.Ok? <==> HasKey(dialogData, ForGeminiKey) && Find(dialogData, ForGeminiKey).value.Obj?
    ensures r.Err? ==> r.error == if HasKey(dialogData, ForGeminiKey) then AttributeError else KeyError(ForGeminiKey)
  {
    var forGemini :- Index(Obj(dialogData), ForGeminiKey);
    if forGemini.Obj? then Ok(Put(dialogData, ForGeminiKey, Obj(Update(forGemini.fields, GeminiPairs(f)))))
    else Err(AttributeError)
  }

  /** `s[:50]`: only strings and lists can be sliced. */
  function Slice50(v: Value): (r: Result<Value>)
    ensures r.Ok? <==> v.Str? || v.List?
    ensures r.Ok? && v.Str? ==> r.value.Str? && |r.value.s| <= 50 && StartsWith(v.s, r.value.s)
    ensures r.Ok? && v.Str? && |v.s| <= 50 ==> r.value == v
    ensures r.Ok? && v.List? ==> r.value.List? && |r.value.items| <= 50 && |r.value.items| <= |v.items| && r.value.items == v.items[..|r.value.items|]
  {
    match v
    case Str(s) => Ok(Str(if |s| <= 50 then s else s[..50]))
    case List(xs) => Ok(List(if |xs| <= 50 then xs else xs[..50]))
    case _ => Err(TypeError)
  }

  /** The text `f"{s[:50]}..."` shows for a string: its first 50 characters,
      always followed by "...", however short the string is. */
  function Preview(s: string): (r: string)
    ensures |r| == (if |s| <= 50 then |s| else 50) + 3
    ensures r[|r| - 3..] == "..."
    ensures StartsWith(s, r[..|r| - 3])
    ensures |s| <= 50 ==> r == s + "..."
  {
    Slice50(Str(s)).value.s + "..."
  }

  /** What the windows show from the common getter. */
  datatype WindowData = WindowData(disciplineName: Value, taskName: Value, descriptionShown: Value, syllabusShown: Value)

  /** `dialog_get_data` as a function of the context: the new `dialog_data`
      and the getter's result. The merge happens before the header is
      built, so it persists even when the header cannot be built. */
  function GetData(dialogData: Dict, startData: Value): (Dict, Result<WindowData>) {
    match Lookups(dialogData, startData)
    case Err(e) => (dialogData, Err(e))
    case Ok(f) =>
      match Merge(dialogData, f)
      case Err(e) => (dialogData, Err(e))
      case Ok(d) =>
        match Slice50(f.taskDescription)
        case Err(e) => (d, Err(e))
        case Ok(description) =>
          match Slice50(f.syllabus)
          case Err(e) => (d, Err(e))
          case Ok(syllabus) => (d, Ok(WindowData(f.disciplineName, f.taskName, description, syllabus)))
  }

  /** `start_data.get(item_id, {}).get("name", UNKNOWN)`. */
  function DisciplineName(startData: Value, itemId: string): (r: Result<Value>)
    ensures r.Ok? <==> startData.Obj? && GetOr(startData.fields, itemId, Obj([])).Obj?
    ensures startData.Obj? && !HasKey(startData.fields, itemId) ==> r == Ok(Unknown)
  {
    var discipline :- Get(startData, itemId, Obj([]));
    Get(discipline, "name", Unknown)
  }

  /** `start_data.get(discipline_id, {}).get(item_id, {}).get("name", UNKNOWN)`
      with the discipline id stored in `dialog_data`. */
  function TaskName(dialogData: Dict, startData: Value, itemId: string): (r: Result<Value>)
    ensures !startData.Obj? ==> r == Err(AttributeError)
  {
    var disciplineId := GetOr(dialogData, DisciplineIdKey, Unknown);
    var discipline :- GetBy(startData, disciplineId, Obj([]));
    var task :- Get(discipline, itemId, Obj([]));
    Get(task, "name", Unknown)
  }

  // ---- the dialog context and its handlers ----

  /** `start_data` after a write through its `for_gemini` dict: that entry
      now holds `g`, and every other entry is as it was. */
  function WithForGemini(startData: Value, g: Value): (r: Value)
    ensures startData.Obj? ==> r.Obj? && Find(r.fields, ForGeminiKey) == Some(g)
    ensures startData.Obj? ==> forall k :: k != ForGeminiKey ==> Find(r.fields, k) == Find(startData.fields, k)
    ensures !startData.Obj? ==> r == startData
  {
    if startData.Obj? then Obj(Put(startData.fields, ForGeminiKey, g)) else startData
  }

  class DialogManager {
    var state: Step
    var dialogData: Dict
    var startData: Value
    var mode: StartMode
    var show: ShowMode
    var middleware: map<string, Middleware>
    /** Whether `dialog_data[for_gemini]` is the very dict object stored as
        `start_data[for_gemini]`, as `on_dialog_start` leaves it. */
    var shared: bool

    /** While the two entries are one object they hold the same value. */
    predicate Sharing()
      reads this
    {
      shared ==> startData.Obj? && HasKey(dialogData, ForGeminiKey)
                 && Find(startData.fields, ForGeminiKey) == Find(dialogData, ForGeminiKey)
    }

    constructor (state: Step, dialogData: Dict, startData: Value, middleware: map<string, Middleware>)
      ensures this.state == state && this.dialogData == dialogData && this.startData == startData
      ensures this.middleware == middleware && mode == NORMAL && show == AUTO && !shared
    {
      this.state := state;
      this.dialogData := dialogData;
      this.startData := startData;
      this.middleware := middleware;
      mode := NORMAL;
      show := AUTO;
      shared := false;
    }

    /** `on_dialog_start`: store `start_data[for_gemini]` itself in
        `dialog_data`, so that from then on the two share one dict. */
    method OnDialogStart() returns (r: Result<()>)
      requires Sharing()
      modifies this
      ensures r.Ok? <==> Index(startData, ForGeminiKey).Ok?
      ensures r.Err? ==> r.error == Index(startData, ForGeminiKey).error
      ensures dialogData == if r.Ok? then Put(old(dialogData), ForGeminiKey, Index(startData, ForGeminiKey).value) else old(dialogData)
      ensures shared == (r.Ok? || old(shared)) && Sharing()
      ensures state == old(state) && startData == old(startData) && mode == old(mode) && show == old(show)
      ensures middleware == old(middleware)
    {
      var forGemini := Index(startData, ForGeminiKey);
      if forGemini.Err? {
        r := Err(forGemini.error);
      } else {
        dialogData := Put(dialogData, ForGeminiKey, forGemini.value);
        shared := true;
        r := Ok(());
      }
    }

    /** The framework's `start`: a fresh context at `s` with empty
        `dialog_data` and the given start data, then `on_dialog_start`. */
    method Start(s: Step, data: Value, mode: StartMode, show: ShowMode) returns (r: Result<()>)
      modifies this
      ensures state == s && startData == data && this.mode == mode && this.show == show
      ensures r.Ok? <==> Index(data, ForGeminiKey).Ok?
      ensures r.Err? ==> r.error == Index(data, ForGeminiKey).error
      ensures dialogData == if r.Ok? then [(ForGeminiKey, Index(data, ForGeminiKey).value)] else []
      ensures shared == r.Ok? && Sharing()
      ensures middleware == old(middleware)
    {
      state := s;
      dialogData := [];
      startData := data;
      shared := false;
      this.mode := mode;
      this.show := show;
      r := OnDialogStart();
    }

    /** `dialog_get_data`: merge the lookups into `for_gemini` and return
        what the windows show. The merge updates the `for_gemini` dict in
        place, so when that dict is shared `start_data` sees it too. */
    method DialogGetData() returns (r: Result<WindowData>)
      requires Sharing()
      modifies this
      ensures (dialogData, r) == GetData(old(dialogData), old(startData))
      ensures shared == old(shared) && Sharing()
      ensures !shared ==> startData == old(startData)
      ensures shared ==> startData == WithForGemini(old(startData), Find(dialogData, ForGeminiKey).value)
      ensures state == old(state) && mode == old(mode) && show == old(show)
      ensures middleware == old(middleware)
    {
      if shared {
        PutSame(startData.fields, ForGeminiKey, Find(dialogData, ForGeminiKey).value);
      }
      var lookups := Lookups(dialogData, startData);
      if lookups.Err? {
        return Err(lookups.error);
      }
      var f := lookups.value;
      var merged := Merge(dialogData, f);
      if merged.Err? {
        return Err(merged.error);
      }
      dialogData := merged.value;
      if shared {
        startData := WithForGemini(startData, Find(dialogData, ForGeminiKey).value);
      }
      var description := Slice50(f.taskDescription);
      if description.Err? {
        return Err(description.error);
      }
      var syllabus := Slice50(f.syllabus);
      if syllabus.Err? {
        return Err(syllabus.error);
      }
      r := Ok(WindowData(f.disciplineName, f.taskName, description.value, syllabus.value));
    }

    /** `discipline_selection`: store the id and the name (the name is
        "unknown" for an id the catalog lacks) and advance to TASK. */
    method DisciplineSelection(itemId: string) returns (r: Result<()>)
      requires state == DISCIPLINE && Sharing()
      modifies this
      ensures r.Ok? <==> DisciplineName(startData, itemId).Ok?
      ensures r.Err? ==> r.error == AttributeError && dialogData == old(dialogData) && state == DISCIPLINE
      ensures r.Ok? ==> state == TASK
      ensures r.Ok? ==> dialogData == Put(Put(old(dialogData), DisciplineIdKey, Str(itemId)),
                                          DisciplineNameKey, DisciplineName(startData, itemId).value)
      ensures startData == old(startData) && mode == old(mode) && show == old(show) && middleware == old(middleware)
      ensures shared == old(shared) && Sharing()
    {
      var name := DisciplineName(startData, itemId);
      if name.Err? {
        r := Err(name.error);
        return;
      }
      dialogData := Put(dialogData, DisciplineIdKey, Str(itemId));
      dialogData := Put(dialogData, DisciplineNameKey, name.value);
      state := Next(state).value;
      r := Ok(());
    }

    /** `task_selection`: store the id and the name of the task under the
        stored discipline and advance to INPUT. */
    method TaskSelection(itemId: string) returns (r: Result<()>)
      requires state == TASK && Sharing()
      modifies this
      ensures r.Ok? <==> TaskName(old(dialogData), startData, itemId).Ok?
      ensures r.Err? ==> r.error == TaskName(old(dialogData), startData, itemId).error
      ensures r.Err? ==> dialogData == old(dialogData) && state == TASK
      ensures r.Ok? ==> state == INPUT
      ensures r.Ok? ==> dialogData == Put(Put(old(dialogData), TaskIdKey, Str(itemId)),
                                          TaskNameKey, TaskName(old(dialogData), startData, itemId).value)
      ensures startData == old(startData) && mode == old(mode) && show == old(show) && middleware == old(middleware)
      ensures shared == old(shared) && Sharing()
    {
      var name := TaskName(dialogData, startData, itemId);
      if name.Err? {
        r := Err(name.error);
        return;
      }
      dialogData := Put(dialogData, TaskIdKey, Str(itemId));
      dialogData := Put(dialogData, TaskNameKey, name.value);
      state := INPUT;
      r := Ok(());
    }

    /** The Back button of the TASK and INPUT windows. */
    method Back()
      requires BackButton in Widgets(state)
      modifies this
      ensures Some(state) == Previous(old(state))
      ensures dialogData == old(dialogData) && startData == old(startData)
      ensures mode == old(mode) && show == old(show) && middleware == old(middleware) && shared == old(shared)
    {
      state := Previous(state).value;
    }

    /** `new_feedback`: back to INPUT, `dialog_data` untouched. */
    method NewFeedback()
      requires state == OUTPUT
      modifies this
      ensures state == INPUT
      ensures dialogData == old(dialogData) && startData == old(startData)
      ensures mode == old(mode) && show == old(show) && middleware == old(middleware) && shared == old(shared)
    {
      state := INPUT;
    }

    /** `handle_feedback`: store a like exactly when the pressed button is
        "like_id", then back to INPUT. */
    method HandleFeedback(callbackData: string) returns (effects: seq<Effect>)
      requires state == OUTPUT
      modifies this
      ensures effects == [FeedbackStored(callbackData == "like_id")]
      ensures state == INPUT
      ensures dialogData == old(dialogData) && startData == old(startData)
      ensures mode == old(mode) && show == old(show) && middleware == old(middleware) && shared == old(shared)
    {
      var like := callbackData == "like_id";
      effects := [FeedbackStored(like)];
      state := INPUT;
    }

    /** `redo_feedback` does nothing. */
    method RedoFeedback() returns (effects: seq<Effect>)
      requires state == OUTPUT
      ensures effects == []
    {
      effects := [];
    }
  }

  // ---- window layout ----

  /** The interactive widgets of each window. */
  datatype Widget =
    | DisciplineSelect | TaskSelect | BackButton | SendButton | TextInput | VoiceInput
    | Dislike | Like | Redo | NewFeedbackButton

  function Widgets(s: Step): seq<Widget> {
    match s
    case DISCIPLINE => [DisciplineSelect]
    case TASK => [TaskSelect, BackButton]
    case INPUT => [BackButton, SendButton, TextInput, VoiceInput]
    case OUTPUT => [Dislike, Like, Redo, NewFeedbackButton]
  }

  /** Where a widget's handler moves the dialog. */
  datatype Move = Advance | Retreat | SwitchTo(target: Step) | Stay | NotModelled

  function MoveOf(w: Widget): Move {
    match w
    case DisciplineSelect => Advance
    case TaskSelect => Advance
    case BackButton => Retreat
    case SendButton => NotModelled    // handle_transcription is not part of this model
    case TextInput => Stay
    case VoiceInput => Stay
    case Dislike => SwitchTo(INPUT)
    case Like => SwitchTo(INPUT)
    case Redo => Stay
    case NewFeedbackButton => SwitchTo(INPUT)
  }

  /** The step a widget of window `s` leads to, when the model knows it. */
  function Target(s: Step, w: Widget): Option<Step> {
    match MoveOf(w)
    case Advance => Next(s)
    case Retreat => Previous(s)
    case SwitchTo(t) => Some(t)
    case Stay => Some(s)
    case NotModelled => None
  }

  // ---- properties ----

  /** Back is offered exactly in the TASK and INPUT windows. */
  lemma BackOnlyInTaskAndInput(s: Step)
    ensures BackButton in Widgets(s) <==> s == TASK || s == INPUT
  {
  }

  /** Every modelled widget of every window leads to an existing step: the
      selections are in windows that have a next one and Back is in windows
      that have a previous one. */
  lemma ModelledMovesAreDefined(s: Step, w: Widget)
    requires w in Widgets(s) && MoveOf(w) != NotModelled
    ensures Target(s, w).Some?
  {
  }

  /** No modelled widget of the INPUT window leads to OUTPUT. */
  lemma NoModelledMoveToOutput(w: Widget)
    requires w in Widgets(INPUT)
    ensures Target(INPUT, w) != Some(OUTPUT)
  {
  }

  /** The discipline buttons list every top-level key of `start_data` in
      order, `for_gemini` included. */
  lemma DisciplinesListEveryKey(startData: Value)
    requires Disciplines(startData).Ok?
    ensures var ds := Disciplines(startData).value;
      |ds| == |Keys(startData.fields)| && forall i :: 0 <= i < |ds| ==> ds[i].1 == Keys(startData.fields)[i]
    ensures HasKey(startData.fields, ForGeminiKey) ==>
      exists p :: p in Disciplines(startData).value && p.1 == ForGeminiKey
  {
    var ds := Disciplines(startData).value;
    if HasKey(startData.fields, ForGeminiKey) {
      HasKeyIffListed(startData.fields, ForGeminiKey);
      var i :| 0 <= i < |Keys(startData.fields)| && Keys(startData.fields)[i] == ForGeminiKey;
      assert ds[i] in ds;
    }
  }

  /** A string without the first character of `sub` does not contain `sub`. */
  lemma {:induction false} NoFirstCharNoContains(s: string, sub: string)
    requires sub != [] && forall i :: 0 <= i < |s| ==> s[i] != sub[0]
    ensures !Contains(s, sub)
    decreases |s|
  {
    if s != [] {
      assert s[0] != sub[0];
      assert forall i :: 0 <= i < |s[1..]| ==> s[1..][i] == s[i + 1];
      NoFirstCharNoContains(s[1..], sub);
    }
  }

  /** "name" and "syllabus" do not contain "task". */
  lemma CatalogFieldsAreNotTasks()
    ensures !Contains("name", "task") && !Contains("syllabus", "task")
  {
    NoFirstCharNoContains("name", "task");
    NoFirstCharNoContains("syllabus", "task");
  }

  /** Every offered task key contains "task", so a discipline's own name and
      syllabus never appear among the task buttons. */
  lemma TasksAreTaskKeys(dialogData: Dict, startData: Value)
    requires Tasks(dialogData, startData).Ok?
    ensures forall p :: p in Tasks(dialogData, startData).value ==> Contains(p.1, "task")
    ensures forall p :: p in Tasks(dialogData, startData).value ==> p.1 != "name" && p.1 != "syllabus"
  {
    CatalogFieldsAreNotTasks();
    var ts := Tasks(dialogData, startData).value;
    var current := GetOr(dialogData, DisciplineIdKey, Unknown);
    var entry := GetBy(startData, current, Obj([])).value;
    forall p | p in ts ensures Contains(p.1, "task") {
      var i :| 0 <= i < |ts| && ts[i] == p;
      assert p.1 in TaskKeys(Keys(entry.fields));
    }
  }

  /** `get_tasks` offers the task entries of the catalog entry selected by
      the stored discipline id ("unknown" if none is stored): exactly its
      keys that contain "task", in order, each with its entry's name. */
  lemma TasksOfStoredDiscipline(dialogData: Dict, startData: Value, id: string, entry: Dict)
    requires GetOr(dialogData, DisciplineIdKey, Unknown) == Str(id)
    requires startData.Obj? && GetOr(startData.fields, id, Obj([])) == Obj(entry)
    ensures Tasks(dialogData, startData) == TaskItems(entry)
    ensures Tasks(dialogData, startData).Ok? ==> var ts := Tasks(dialogData, startData).value;
      |ts| == |TaskKeys(Keys(entry))| && forall i :: 0 <= i < |ts| ==> ts[i].1 == TaskKeys(Keys(entry))[i]
  {
  }

  /** A discipline id the catalog does not hold has no tasks. */
  lemma UnknownDisciplineHasNoTasks(dialogData: Dict, startData: Value, id: string)
    requires startData.Obj? && !HasKey(startData.fields, id)
    requires Find(dialogData, DisciplineIdKey) == Some(Str(id))
    ensures Tasks(dialogData, startData) == Ok([])
  {
  }

  /** An id the catalog lacks still gets a name, "unknown", so the
      selection still advances to TASK. */
  lemma UnknownDisciplineIsNamedUnknown(startData: Value, itemId: string)
    requires startData.Obj? && !HasKey(startData.fields, itemId)
    ensures DisciplineName(startData, itemId) == Ok(Str("unknown"))
  {
  }

  /** A catalog entry with a name gives that name. */
  lemma KnownDisciplineIsNamed(startData: Value, itemId: string, entry: Dict, name: Value)
    requires startData.Obj? && Find(startData.fields, itemId) == Some(Obj(entry))
    requires Find(entry, "name") == Some(name)
    ensures DisciplineName(startData, itemId) == Ok(name)
  {
  }

  /** The task name is looked up under the stored discipline: a task entry
      gives its own name, or "unknown" when it has none. */
  lemma KnownTaskIsNamed(dialogData: Dict, startData: Value, id: string, entry: Dict, itemId: string, task: Dict)
    requires Find(dialogData, DisciplineIdKey) == Some(Str(id))
    requires startData.Obj? && Find(startData.fields, id) == Some(Obj(entry))
    requires Find(entry, itemId) == Some(Obj(task))
    ensures TaskName(dialogData, startData, itemId) == Ok(GetOr(task, "name", Unknown))
  {
  }

  /** A task id the stored discipline lacks is named "unknown", and so is
      any task when no discipline is stored and the catalog has no
      "unknown" entry. */
  lemma UnknownTaskIsNamedUnknown(dialogData: Dict, startData: Value, itemId: string)
    requires startData.Obj?
    requires var id := GetOr(dialogData, DisciplineIdKey, Unknown);
      id.Str? && GetOr(startData.fields, id.s, Obj([])).Obj?
      && !HasKey(GetOr(startData.fields, id.s, Obj([])).fields, itemId)
    ensures TaskName(dialogData, startData, itemId) == Ok(Str("unknown"))
  {
  }

  /** The lookups default to "unknown": a name missing from `dialog_data`
      is "unknown", and a stored discipline id the catalog lacks gives an
      "unknown" description and syllabus. */
  lemma LookupsDefaultToUnknown(dialogData: Dict, startData: Value, id: string)
    requires startData.Obj?
    requires Find(dialogData, DisciplineIdKey) == Some(Str(id)) && !HasKey(startData.fields, id)
    requires GetOr(dialogData, TaskIdKey, Unknown).Str?
    ensures Lookups(dialogData, startData).Ok?
    ensures var f := Lookups(dialogData, startData).value;
      && f.taskDescription == Unknown && f.syllabus == Unknown
      && (!HasKey(dialogData, DisciplineNameKey) ==> f.disciplineName == Unknown)
      && (!HasKey(dialogData, TaskNameKey) ==> f.taskName == Unknown)
  {
  }

  /** For a stored discipline whose catalog entry is `entry` and a stored
      task whose entry in it is `task`, the lookups give that task's
      description and that discipline's syllabus, each "unknown" if the
      entry lacks it. */
  lemma KnownTaskLookups(dialogData: Dict, startData: Value, id: string, entry: Dict, taskId: string, task: Dict)
    requires GetOr(dialogData, DisciplineIdKey, Unknown) == Str(id)
    requires GetOr(dialogData, TaskIdKey, Unknown) == Str(taskId)
    requires startData.Obj? && Find(startData.fields, id) == Some(Obj(entry))
    requires Find(entry, taskId) == Some(Obj(task))
    ensures Lookups(dialogData, startData)
      == Ok(GeminiFields(GetOr(dialogData, DisciplineNameKey, Unknown), GetOr(dialogData, TaskNameKey, Unknown),
                         GetOr(task, TaskDescriptionKey, Unknown), GetOr(entry, SyllabusKey, Unknown)))
  {
  }

  /** A task the selected discipline lacks has the description "unknown",
      while the syllabus is still the discipline's. */
  lemma MissingTaskLookups(dialogData: Dict, startData: Value, id: string, entry: Dict, taskId: string)
    requires GetOr(dialogData, DisciplineIdKey, Unknown) == Str(id)
    requires GetOr(dialogData, TaskIdKey, Unknown) == Str(taskId)
    requires startData.Obj? && Find(startData.fields, id) == Some(Obj(entry))
    requires !HasKey(entry, taskId)
    ensures Lookups(dialogData, startData)
      == Ok(GeminiFields(GetOr(dialogData, DisciplineNameKey, Unknown), GetOr(dialogData, TaskNameKey, Unknown),
                         Unknown, GetOr(entry, SyllabusKey, Unknown)))
  {
  }

  /** The merge sets the four fields in `for_gemini` and leaves every other
      key of `for_gemini`, and every other key of `dialog_data`, as it was. */
  lemma MergeSetsFourFields(dialogData: Dict, f: GeminiFields, g: Dict)
    requires Find(dialogData, ForGeminiKey) == Some(Obj(g))
    ensures Merge(dialogData, f).Ok?
    ensures var d := Merge(dialogData, f).value;
      && (forall k :: k != ForGeminiKey ==> Find(d, k) == Find(dialogData, k))
      && Keys(d) == Keys(dialogData)
      && Find(d, ForGeminiKey).Some? && Find(d, ForGeminiKey).value.Obj?
    ensures var g' := Find(Merge(dialogData, f).value, ForGeminiKey).value.fields;
      && Find(g', DisciplineNameKey) == Some(f.disciplineName)
      && Find(g', TaskNameKey) == Some(f.taskName)
      && Find(g', TaskDescriptionKey) == Some(f.taskDescription)
      && Find(g', SyllabusKey) == Some(f.syllabus)
      && forall k :: k !in MergedKeys ==> Find(g', k) == Find(g, k)
  {
    var g' := Update(g, GeminiPairs(f));
    assert Merge(dialogData, f) == Ok(Put(dialogData, ForGeminiKey, Obj(g')));
    PutKeys(dialogData, ForGeminiKey, Obj(g'));
    UpdateSetsFour(g, f);
  }

  /** The update of `for_gemini` alone: the four fields get the looked-up
      values and the other keys keep theirs. */
  lemma UpdateSetsFour(g: Dict, f: GeminiFields)
    ensures var g' := Update(g, GeminiPairs(f));
      && Find(g', DisciplineNameKey) == Some(f.disciplineName)
      && Find(g', TaskNameKey) == Some(f.taskName)
      && Find(g', TaskDescriptionKey) == Some(f.taskDescription)
      && Find(g', SyllabusKey) == Some(f.syllabus)
      && forall k :: k !in MergedKeys ==> Find(g', k) == Find(g, k)
  {
    MergedKeySet(g, f, 0);
    MergedKeySet(g, f, 1);
    MergedKeySet(g, f, 2);
    MergedKeySet(g, f, 3);
    forall k | k !in MergedKeys ensures Find(Update(g, GeminiPairs(f)), k) == Find(g, k) {
      GeminiPairsKeys(f);
      UpdateKeepsOtherKeys(g, GeminiPairs(f), k);
    }
  }

  /** The `i`-th of the four merged keys gets its looked-up value. */
  lemma MergedKeySet(g: Dict, f: GeminiFields, i: nat)
    requires i < 4
    ensures Find(Update(g, GeminiPairs(f)), MergedKeys[i]) == Some(GeminiPairs(f)[i].1)
  {
    var pairs := GeminiPairs(f);
    GeminiPairsKeys(f);
    assert pairs[i].0 == MergedKeys[i];
    UpdateSetsKey(g, pairs, i);
  }

  /** The getter persists the merge whenever the lookups and the merge
      succeed, even if the header then cannot be built. */
  lemma GetDataPersistsMerge(dialogData: Dict, startData: Value)
    requires Lookups(dialogData, startData).Ok?
    requires Merge(dialogData, Lookups(dialogData, startData).value).Ok?
    ensures GetData(dialogData, startData).0 == Merge(dialogData, Lookups(dialogData, startData).value).value
  {
  }

  /** With nothing selected yet, every lookup of the first render is
      "unknown". */
  lemma FirstRenderLookups(g: Value, catalog: Value)
    requires catalog == Obj([("d1", Obj([("name", Str("Math"))])), (ForGeminiKey, g)])
    ensures Lookups([(ForGeminiKey, g)], catalog) == Ok(GeminiFields(Unknown, Unknown, Unknown, Unknown))
  {
    FindAbsent([(ForGeminiKey, g)], DisciplineIdKey);
    FindAbsent([(ForGeminiKey, g)], DisciplineNameKey);
    FindAbsent([(ForGeminiKey, g)], TaskNameKey);
    FindAbsent([(ForGeminiKey, g)], TaskIdKey);
    assert catalog.fields[0].0 != UnknownKey && catalog.fields[1].0 != UnknownKey;
    FindAbsent(catalog.fields, UnknownKey);
  }

  /** The first render of the sample catalog: the shared `for_gemini` dict
      gains an "unknown" task name and still has no "name", and
      `start_data` holds that dict at its old place. */
  lemma FirstRenderShares(g: Dict, catalog: Value, dialogData: Dict, startData: Value)
    requires g == [(PromptKey, Str("P"))]
    requires catalog == Obj([("d1", Obj([("name", Str("Math"))])), (ForGeminiKey, Obj(g))])
    requires dialogData == GetData([(ForGeminiKey, Obj(g))], catalog).0
    requires startData == WithForGemini(catalog, Find(dialogData, ForGeminiKey).value)
    ensures Find(dialogData, ForGeminiKey).Some? && Find(dialogData, ForGeminiKey).value.Obj?
    ensures var merged := Find(dialogData, ForGeminiKey).value.fields;
      && Find(merged, TaskNameKey) == Some(Unknown) && Find(merged, "name") == None
      && startData.fields == [("d1", Obj([("name", Str("Math"))])), (ForGeminiKey, Obj(merged))]
  {
    var f := GeminiFields(Unknown, Unknown, Unknown, Unknown);
    FirstRenderLookups(Obj(g), catalog);
    MergeSetsFourFields([(ForGeminiKey, Obj(g))], f, g);
    var merged := Find(dialogData, ForGeminiKey).value.fields;
    assert Find(merged, "name") == None by {
      assert "name" !in MergedKeys;
      FindAbsent(g, "name");
    }
  }

  /** The button list of the rendered sample ends with `for_gemini`, named
      "None", and choosing it makes the task buttons raise. */
  lemma RenderedSampleButtons(merged: Dict, startData: Value, dialogData: Dict)
    requires Find(merged, TaskNameKey) == Some(Unknown) && Find(merged, "name") == None
    requires startData == Obj([("d1", Obj([("name", Str("Math"))])), (ForGeminiKey, Obj(merged))])
    ensures Disciplines(startData).Ok? && (Str("None"), ForGeminiKey) in Disciplines(startData).value
    ensures DisciplineName(startData, ForGeminiKey) == Ok(Unknown)
    ensures Find(dialogData, DisciplineIdKey) == Some(Str(ForGeminiKey)) ==> Tasks(dialogData, startData) == Err(AttributeError)
  {
    var buttons := ItemButtons(startData.fields);
    assert buttons.Ok? && buttons.value[1] == (GetOr(merged, "name", Str("None")), ForGeminiKey);
    assert buttons.value[1] in buttons.value;
    FindListed(startData.fields, ForGeminiKey);
    assert Find(startData.fields, ForGeminiKey) == Some(Obj(merged));
    assert Contains(TaskNameKey, "task");
    NonDictTaskRaises(merged, TaskNameKey);
  }

  /** A task key that holds something other than a dict makes the task
      buttons raise. */
  lemma NonDictTaskRaises(items: Dict, k: string)
    requires Contains(k, "task") && Find(items, k).Some? && !Find(items, k).value.Obj?
    ensures TaskItems(items) == Err(AttributeError)
  {
    FindListed(items, k);
  }

  /** The catalog's own `for_gemini` entry is offered as a discipline button
      named "None". The first render merges "unknown" task fields into the
      `for_gemini` dict, which `start_data` shares, so after that button is
      chosen the task window's getter calls `.get` on the string "unknown"
      and raises AttributeError. */
  method ForGeminiButtonBreaksTaskWindow() returns (offered: bool, tasks: Result<seq<(Value, string)>>)
    ensures offered
    ensures tasks == Err(AttributeError)
  {
    var g := [(PromptKey, Str("P"))];
    var catalog := Obj([("d1", Obj([("name", Str("Math"))])), (ForGeminiKey, Obj(g))]);
    assert Find(catalog.fields, ForGeminiKey) == Some(Obj(g));
    var m := new DialogManager(DISCIPLINE, [], Nil, map[]);
    var started := m.Start(DISCIPLINE, catalog, NORMAL, AUTO);
    assert m.dialogData == [(ForGeminiKey, Obj(g))];
    var shown := m.DialogGetData();
    FirstRenderShares(g, catalog, m.dialogData, m.startData);
    var merged := Find(m.dialogData, ForGeminiKey).value.fields;
    RenderedSampleButtons(merged, m.startData, []);
    var buttons := Disciplines(m.startData);
    offered := buttons.Ok? && (Str("None"), ForGeminiKey) in buttons.value;
    var selected := m.DisciplineSelection(ForGeminiKey);
    RenderedSampleButtons(merged, m.startData, m.dialogData);
    tasks := Tasks(m.dialogData, m.startData);
  }
}
