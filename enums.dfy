/** The string-valued enumerations of src/enums.py. Each member's value is
    the string the program stores, compares or uses as a dictionary key. */
module Enums {

  function LowerChar(c: char): char {
    if 'A' <= c <= 'Z' then (c as int + 32) as char else c
  }

  /** ASCII lower-casing, enough for the member names used here. */
  function Lower(s: string): (r: string) {
    seq(|s|, i requires 0 <= i < |s| => LowerChar(s[i]))
  }

  lemma LowerIs(s: string, t: string)
    requires |s| == |t| && forall i :: 0 <= i < |s| ==> LowerChar(s[i]) == t[i]
    ensures Lower(s) == t
  {
  }

  /** The coarse user actions recorded by the action log. */
  datatype Action =
    | START | RESTART | BACK | NEXT | CANCEL | CONFIRM | DELETE | EDIT | SEND
    | SELECT | SELECTED | UNSELECTED | ADD | REMOVE | ONBOARDING | OFFBOARDING | CHAT
  {
    function Name(): string {
      match this
      case START => "START" case RESTART => "RESTART" case BACK => "BACK"
      case NEXT => "NEXT" case CANCEL => "CANCEL" case CONFIRM => "CONFIRM"
      case DELETE => "DELETE" case EDIT => "EDIT" case SEND => "SEND"
      case SELECT => "SELECT" case SELECTED => "SELECTED" case UNSELECTED => "UNSELECTED"
      case ADD => "ADD" case REMOVE => "REMOVE" case ONBOARDING => "ONBOARDING"
      case OFFBOARDING => "OFFBOARDING" case CHAT => "CHAT"
    }
    function Value(): string {
      match this
      case START => "start" case RESTART => "restart" case BACK => "back"
      case NEXT => "next" case CANCEL => "cancel" case CONFIRM => "confirm"
      case DELETE => "delete" case EDIT => "edit" case SEND => "send"
      case SELECT => "select" case SELECTED => "selected" case UNSELECTED => "unselected"
      case ADD => "add" case REMOVE => "remove" case ONBOARDING => "onboarding"
      case OFFBOARDING => "offboarding" case CHAT => "chat"
    }
  }

  /** The Redis databases; each value names the field of the Redis section
      of the configuration that holds that database's URL. */
  datatype Database = FSM | USERS | TEMP {
    function Name(): string {
      match this case FSM => "FSM" case USERS => "USERS" case TEMP => "TEMP"
    }
    function Value(): string {
      match this case FSM => "fsm" case USERS => "users" case TEMP => "temp"
    }
  }

  datatype RedisKey = KNOWN_USERS | PARSER_JOBS | PARSER_JOBS_RUNNING {
    function Name(): string {
      match this
      case KNOWN_USERS => "KNOWN_USERS" case PARSER_JOBS => "PARSER_JOBS"
      case PARSER_JOBS_RUNNING => "PARSER_JOBS_RUNNING"
    }
    function Value(): string {
      match this
      case KNOWN_USERS => "known_users" case PARSER_JOBS => "parser_jobs"
      case PARSER_JOBS_RUNNING => "parser_jobs_running"
    }
  }

  /** The keys of the dialog's `dialog_data` and of its `for_gemini` entry,
      as the strings they are. */
  const ForGeminiKey: string := "for_gemini"
  const DisciplineNameKey: string := "discipline_name"
  const DisciplineIdKey: string := "discipline_id"
  const TaskNameKey: string := "task_name"
  const TaskIdKey: string := "task_id"
  const TaskDescriptionKey: string := "task_description"
  const SyllabusKey: string := "syllabus"
  const UnknownKey: string := "unknown"
  const TemperatureKey: string := "temperature"
  const PromptKey: string := "prompt"
  const TextFromTeacherKey: string := "text_from_teacher"
  const FeedbackTextKey: string := "feedback_text"

  datatype DialogDataKey =
    | FOR_GEMINI | DISCIPLINE_NAME | DISCIPLINE_ID | TASK_NAME | TASK_ID
    | TASK_DESCRIPTION | SYLLABUS | UNKNOWN | TEMPERATURE | PROMPT
    | TEXT_FROM_TEACHER | FEEDBACK_TEXT
  {
    function Name(): string {
      match this
      case FOR_GEMINI => "FOR_GEMINI" case DISCIPLINE_NAME => "DISCIPLINE_NAME"
      case DISCIPLINE_ID => "DISCIPLINE_ID" case TASK_NAME => "TASK_NAME"
      case TASK_ID => "TASK_ID" case TASK_DESCRIPTION => "TASK_DESCRIPTION"
      case SYLLABUS => "SYLLABUS" case UNKNOWN => "UNKNOWN"
      case TEMPERATURE => "TEMPERATURE" case PROMPT => "PROMPT"
      case TEXT_FROM_TEACHER => "TEXT_FROM_TEACHER" case FEEDBACK_TEXT => "FEEDBACK_TEXT"
    }
    function Value(): string {
      match this
      case FOR_GEMINI => ForGeminiKey
      case DISCIPLINE_NAME => DisciplineNameKey
      case DISCIPLINE_ID => DisciplineIdKey
      case TASK_NAME => TaskNameKey
      case TASK_ID => TaskIdKey
      case TASK_DESCRIPTION => TaskDescriptionKey
      case SYLLABUS => SyllabusKey
      case UNKNOWN => UnknownKey
      case TEMPERATURE => TemperatureKey
      case PROMPT => PromptKey
      case TEXT_FROM_TEACHER => TextFromTeacherKey
      case FEEDBACK_TEXT => FeedbackTextKey
    }
  }

  /** Every member's value is its name in lower case. */
  lemma ActionValuesAreLowerCaseNames(a: Action)
    ensures a.Value() == Lower(a.Name())
  {
    if a in {START, RESTART, BACK, NEXT, CANCEL, CONFIRM, DELETE, EDIT, SEND} {
      DialogActionsAreLowerCaseNames(a);
    } else {
      ItemActionsAreLowerCaseNames(a);
    }
  }

  /** The actions that move through a dialog. */
  lemma DialogActionsAreLowerCaseNames(a: Action)
    requires a in {START, RESTART, BACK, NEXT, CANCEL, CONFIRM, DELETE, EDIT, SEND}
    ensures a.Value() == Lower(a.Name())
  {
    match a
    case START => LowerIs("START", "start");
    case RESTART => LowerIs("RESTART", "restart");
    case BACK => LowerIs("BACK", "back");
    case NEXT => LowerIs("NEXT", "next");
    case CANCEL => LowerIs("CANCEL", "cancel");
    case CONFIRM => LowerIs("CONFIRM", "confirm");
    case DELETE => LowerIs("DELETE", "delete");
    case EDIT => LowerIs("EDIT", "edit");
    case SEND => LowerIs("SEND", "send");
  }

  /** The actions on items, users and chats. */
  lemma ItemActionsAreLowerCaseNames(a: Action)
    requires a in {SELECT, SELECTED, UNSELECTED, ADD, REMOVE, ONBOARDING, OFFBOARDING, CHAT}
    ensures a.Value() == Lower(a.Name())
  {
    match a
    case SELECT => LowerIs("SELECT", "select");
    case SELECTED => LowerIs("SELECTED", "selected");
    case UNSELECTED => LowerIs("UNSELECTED", "unselected");
    case ADD => LowerIs("ADD", "add");
    case REMOVE => LowerIs("REMOVE", "remove");
    case ONBOARDING => LowerIs("ONBOARDING", "onboarding");
    case OFFBOARDING => LowerIs("OFFBOARDING", "offboarding");
    case CHAT => LowerIs("CHAT", "chat");
  }

  lemma DatabaseValuesAreLowerCaseNames(d: Database)
    ensures d.Value() == Lower(d.Name())
  {
    match d case FSM => case USERS => case TEMP =>
  }

  lemma RedisKeyValuesAreLowerCaseNames(k: RedisKey)
    ensures k.Value() == Lower(k.Name())
  {
    match k case KNOWN_USERS => case PARSER_JOBS => case PARSER_JOBS_RUNNING =>
  }

  lemma DialogDataKeyValuesAreLowerCaseNames(k: DialogDataKey)
    ensures k.Value() == Lower(k.Name())
  {
    if k in {FOR_GEMINI, DISCIPLINE_NAME, DISCIPLINE_ID, TASK_NAME, TASK_ID} {
      SelectionKeysAreLowerCaseNames(k);
    } else if k in {TASK_DESCRIPTION, SYLLABUS, TEXT_FROM_TEACHER, FEEDBACK_TEXT} {
      ContentKeysAreLowerCaseNames(k);
    } else {
      GenerationKeysAreLowerCaseNames(k);
    }
  }

  /** The keys the selection windows store in `dialog_data`. */
  lemma SelectionKeysAreLowerCaseNames(k: DialogDataKey)
    requires k in {FOR_GEMINI, DISCIPLINE_NAME, DISCIPLINE_ID, TASK_NAME, TASK_ID}
    ensures k.Value() == Lower(k.Name())
  {
    match k
    case FOR_GEMINI => LowerIs("FOR_GEMINI", "for_gemini");
    case DISCIPLINE_NAME => LowerIs("DISCIPLINE_NAME", "discipline_name");
    case DISCIPLINE_ID => LowerIs("DISCIPLINE_ID", "discipline_id");
    case TASK_NAME => LowerIs("TASK_NAME", "task_name");
    case TASK_ID => LowerIs("TASK_ID", "task_id");
  }

  /** The keys of the task's content and of the teacher's text. */
  lemma ContentKeysAreLowerCaseNames(k: DialogDataKey)
    requires k in {TASK_DESCRIPTION, SYLLABUS, TEXT_FROM_TEACHER, FEEDBACK_TEXT}
    ensures k.Value() == Lower(k.Name())
  {
    match k
    case TASK_DESCRIPTION => LowerIs("TASK_DESCRIPTION", "task_description");
    case SYLLABUS => LowerIs("SYLLABUS", "syllabus");
    case TEXT_FROM_TEACHER => LowerIs("TEXT_FROM_TEACHER", "text_from_teacher");
    case FEEDBACK_TEXT => LowerIs("FEEDBACK_TEXT", "feedback_text");
  }

  /** The default value and the generation settings. */
  lemma GenerationKeysAreLowerCaseNames(k: DialogDataKey)
    requires k in {UNKNOWN, TEMPERATURE, PROMPT}
    ensures k.Value() == Lower(k.Name())
  {
    match k
    case UNKNOWN => LowerIs("UNKNOWN", "unknown");
    case TEMPERATURE => LowerIs("TEMPERATURE", "temperature");
    case PROMPT => LowerIs("PROMPT", "prompt");
  }

  /** No two members of one enumeration share a value. */
  lemma ValuesAreDistinct()
    ensures forall a: Action, b: Action :: a.Value() == b.Value() ==> a == b
    ensures forall a: Database, b: Database :: a.Value() == b.Value() ==> a == b
    ensures forall a: RedisKey, b: RedisKey :: a.Value() == b.Value() ==> a == b
    ensures forall a: DialogDataKey, b: DialogDataKey :: a.Value() == b.Value() ==> a == b
  {
  }

  /** The Redis databases are exactly `fsm`, `users` and `temp`. */
  lemma DatabaseValues()
    ensures (set d: Database :: d.Value()) == {"fsm", "users", "temp"}
  {
    assert FSM.Value() == "fsm" && USERS.Value() == "users" && TEMP.Value() == "temp";
  }
}
