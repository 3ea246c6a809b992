/** The input handlers of src/utils/feedback_handlers.py: a voice message is
    downloaded, transcribed and the transcript sent back when it is at most
    10 MiB, and a typed text is stored in `for_gemini` and turned into a
    feedback request whose reply is sent back. The downloaded bytes, the
    uploaded file's handle and the generated texts are parameters. */
module FeedbackHandlers {

  import opened Values
  import opened Enums
  import opened States
  import opened GenAI
  import opened Effects
  import opened FeedbackDialog

  /** The largest voice message accepted, in bytes. */
  const MAX_BYTES: int := 10 * 1024 * 1024

  /** `file_size <= MAX_BYTES`: the size test of a voice message. */
  predicate AcceptsSize(size: int) {
    size <= MAX_BYTES
  }

  datatype Voice = Voice(fileId: string, fileSize: Option<int>)
  datatype Message = Message(voice: Option<Voice>)

  /** `handle_voice`. It has no `modifies` clause: it never writes
      `dialog_data` and never moves the dialog. A voice without a size
      fails the size comparison with a TypeError. */
  method HandleVoice(m: DialogManager, userId: int, message: Message, fileBytes: seq<byte>,
                     model: string, handle: string, transcript: string) returns (r: Result<seq<Effect>>)
    ensures message.voice.None? ==> r == Ok([Answered(NotVoice)])
    ensures message.voice.Some? && message.voice.value.fileSize.None? ==> r == Err(TypeError)
    ensures message.voice.Some? && message.voice.value.fileSize.Some? && !AcceptsSize(message.voice.value.fileSize.value) ==>
      r == Ok([Answered(VoiceTooLarge)])
    ensures message.voice.Some? && message.voice.value.fileSize.Some? && AcceptsSize(message.voice.value.fileSize.value) ==>
      r == Ok([Downloaded(message.voice.value.fileId),
               TranscriptRequested(Upload(fileBytes, VoiceUpload),
                                   TranscriptRequest(model, [Prompt(TranscriptPrompt), Uploaded(handle)])),
               SentMessage(userId, transcript)])
  {
    if message.voice.None? {
      return Ok([Answered(NotVoice)]);
    }
    var voice := message.voice.value;
    if voice.fileSize.None? {
      return Err(TypeError);
    }
    if AcceptsSize(voice.fileSize.value) {
      var buffer := new BytesBuffer();
      buffer.Write(fileBytes);
      assert buffer.data == fileBytes;
      var upload, request := GenerateTranscript(buffer, model, handle);
      r := Ok([Downloaded(voice.fileId), TranscriptRequested(upload, request), SentMessage(userId, transcript)]);
    } else {
      r := Ok([Answered(VoiceTooLarge)]);
    }
  }

  /** `dialog_data[for_gemini][feedback_text] = text`. */
  function StoreFeedbackText(dialogData: Dict, text: string): (r: Result<Dict>)
    ensures r.Ok? <==> HasKey(dialogData, ForGeminiKey) && Find(dialogData, ForGeminiKey).value.Obj?
    ensures r.Err? ==> r.error == if HasKey(dialogData, ForGeminiKey) then TypeError else KeyError(ForGeminiKey)
    ensures r.Ok? ==> Keys(r.value) == Keys(dialogData)
    ensures r.Ok? ==> forall k :: k != ForGeminiKey ==> Find(r.value, k) == Find(dialogData, k)
    ensures r.Ok? ==> var g := Find(dialogData, ForGeminiKey).value.fields;
      Find(r.value, ForGeminiKey) == Some(Obj(Put(g, FeedbackTextKey, Str(text))))
  {
    var forGemini :- Index(Obj(dialogData), ForGeminiKey);
    var updated :- SetItem(forGemini, FeedbackTextKey, Str(text));
    PutKeys(dialogData, ForGeminiKey, updated);
    Ok(Put(dialogData, ForGeminiKey, updated))
  }

  /** `process_feedback_text`: the text is stored before the request is
      built, the request is built from the updated `for_gemini`, and the
      generated reply is sent to the user. The step does not change. The
      text is written into the `for_gemini` dict in place, so when that
      dict is shared `start_data` sees it too. */
  method ProcessFeedbackText(m: DialogManager, userId: int, text: string, model: string, reply: string)
      returns (r: Result<seq<Effect>>)
    requires m.Sharing()
    modifies m
    ensures match StoreFeedbackText(old(m.dialogData), text)
      case Err(e) => r == Err(e) && m.dialogData == old(m.dialogData)
      case Ok(d) =>
        && m.dialogData == d
        && match BuildFeedbackRequest(model, Find(d, ForGeminiKey).value)
           case Err(e) => r == Err(e)
           case Ok(request) => r == Ok([FeedbackRequested(request), SentMessage(userId, reply)])
    ensures m.shared == old(m.shared) && m.Sharing()
    ensures !m.shared ==> m.startData == old(m.startData)
    ensures m.shared ==> m.startData == WithForGemini(old(m.startData), Find(m.dialogData, ForGeminiKey).value)
    ensures m.state == old(m.state)
    ensures m.mode == old(m.mode) && m.show == old(m.show) && m.middleware == old(m.middleware)
  {
    if m.shared {
      PutSame(m.startData.fields, ForGeminiKey, Find(m.dialogData, ForGeminiKey).value);
    }
    var stored := StoreFeedbackText(m.dialogData, text);
    if stored.Err? {
      return Err(stored.error);
    }
    m.dialogData := stored.value;
    if m.shared {
      m.startData := WithForGemini(m.startData, Find(m.dialogData, ForGeminiKey).value);
    }
    var forGemini := Index(Obj(m.dialogData), ForGeminiKey);
    var request := BuildFeedbackRequest(model, forGemini.value);
    if request.Err? {
      return Err(request.error);
    }
    r := Ok([FeedbackRequested(request.value), SentMessage(userId, reply)]);
  }

  // ---- properties ----

  /** The limit is 10 MiB and inclusive: a voice of exactly 10485760 bytes
      is accepted, one byte more is refused, and any smaller voice is
      accepted too. */
  lemma SizeLimitInclusive(size: int)
    ensures AcceptsSize(10485760) && !AcceptsSize(10485761)
    ensures AcceptsSize(size) <==> size <= 10485760
  {
  }

  /** The request built after storing a text carries that text first. */
  lemma RequestCarriesStoredText(dialogData: Dict, text: string, model: string)
    requires StoreFeedbackText(dialogData, text).Ok?
    requires BuildFeedbackRequest(model, Find(StoreFeedbackText(dialogData, text).value, ForGeminiKey).value).Ok?
    ensures BuildFeedbackRequest(model, Find(StoreFeedbackText(dialogData, text).value, ForGeminiKey).value).value.contents[0]
      == Str(text)
  {
    var d := StoreFeedbackText(dialogData, text).value;
    var fg := Find(d, ForGeminiKey).value;
    var req := BuildFeedbackRequest(model, fg).value;
    assert Some(req.contents[0]) == Find(fg.fields, FeedbackKeys[1]);
  }

  /** Storing the text replaces `for_gemini` by its copy with the text set. */
  lemma StoreSetsText(d: Dict, g: Dict, text: string)
    requires Find(d, ForGeminiKey) == Some(Obj(g))
    ensures StoreFeedbackText(d, text) == Ok(Put(d, ForGeminiKey, Obj(Put(g, FeedbackTextKey, Str(text)))))
  {
  }

  /** Setting the feedback text keeps the prompt and the four merged fields. */
  lemma SetTextKeepsFields(g: Dict, prompt: Value, f: GeminiFields, text: string)
    requires Find(g, PromptKey) == Some(prompt)
    requires Find(g, DisciplineNameKey) == Some(f.disciplineName)
    requires Find(g, TaskNameKey) == Some(f.taskName)
    requires Find(g, TaskDescriptionKey) == Some(f.taskDescription)
    requires Find(g, SyllabusKey) == Some(f.syllabus)
    ensures var g' := Put(g, FeedbackTextKey, Str(text));
      && Find(g', PromptKey) == Some(prompt)
      && Find(g', FeedbackTextKey) == Some(Str(text))
      && Find(g', DisciplineNameKey) == Some(f.disciplineName)
      && Find(g', TaskNameKey) == Some(f.taskName)
      && Find(g', TaskDescriptionKey) == Some(f.taskDescription)
      && Find(g', SyllabusKey) == Some(f.syllabus)
  {
  }

  /** Storing a text into a `for_gemini` that holds the prompt and the four
      merged fields yields the request built from all six. */
  lemma StoredTextRequest(d: Dict, g: Dict, prompt: Value, f: GeminiFields, text: string, model: string)
    requires Find(d, ForGeminiKey) == Some(Obj(g))
    requires Find(g, PromptKey) == Some(prompt)
    requires Find(g, DisciplineNameKey) == Some(f.disciplineName)
    requires Find(g, TaskNameKey) == Some(f.taskName)
    requires Find(g, TaskDescriptionKey) == Some(f.taskDescription)
    requires Find(g, SyllabusKey) == Some(f.syllabus)
    ensures StoreFeedbackText(d, text).Ok?
    ensures BuildFeedbackRequest(model, Find(StoreFeedbackText(d, text).value, ForGeminiKey).value)
      == Ok(FeedbackRequest(model, prompt, [Str(text), f.disciplineName, f.taskName, f.taskDescription, f.syllabus]))
  {
    var g' := Put(g, FeedbackTextKey, Str(text));
    StoreSetsText(d, g, text);
    SetTextKeepsFields(g, prompt, f, text);
    FeedbackRequestContents(model, g', prompt, Str(text), f.disciplineName, f.taskName, f.taskDescription, f.syllabus);
    assert Find(Put(d, ForGeminiKey, Obj(g')), ForGeminiKey) == Some(Obj(g'));
  }

  /** After the common getter merged the lookups into a `for_gemini` that
      holds a prompt, storing a text yields the request
      [text, discipline name, task name, task description, syllabus] with
      the prompt as system instruction. */
  lemma MergedThenTypedRequest(dialogData: Dict, f: GeminiFields, g: Dict, prompt: Value, text: string, model: string)
    requires Find(dialogData, ForGeminiKey) == Some(Obj(g))
    requires Find(g, PromptKey) == Some(prompt)
    ensures Merge(dialogData, f).Ok?
    ensures StoreFeedbackText(Merge(dialogData, f).value, text).Ok?
    ensures var d := StoreFeedbackText(Merge(dialogData, f).value, text).value;
      BuildFeedbackRequest(model, Find(d, ForGeminiKey).value)
        == Ok(FeedbackRequest(model, prompt, [Str(text), f.disciplineName, f.taskName, f.taskDescription, f.syllabus]))
  {
    MergeSetsFourFields(dialogData, f, g);
    var merged := Merge(dialogData, f).value;
    var g' := Find(merged, ForGeminiKey).value.fields;
    assert Find(g', PromptKey) == Some(prompt) by {
      assert PromptKey !in MergedKeys;
    }
    StoredTextRequest(merged, g', prompt, f, text, model);
  }

  /** From catalog to request: once a known task of a known discipline is
      selected, the first render merges that task's description and that
      discipline's syllabus into a `for_gemini` that holds a prompt, and a
      typed text then yields the request [text, discipline name, task name,
      task description, syllabus]. */
  lemma CatalogReachesRequest(dialogData: Dict, startData: Value, id: string, entry: Dict, taskId: string, task: Dict,
                              g: Dict, prompt: Value, text: string, model: string)
    requires GetOr(dialogData, DisciplineIdKey, Unknown) == Str(id)
    requires GetOr(dialogData, TaskIdKey, Unknown) == Str(taskId)
    requires startData.Obj? && Find(startData.fields, id) == Some(Obj(entry))
    requires Find(entry, taskId) == Some(Obj(task))
    requires Find(dialogData, ForGeminiKey) == Some(Obj(g)) && Find(g, PromptKey) == Some(prompt)
    ensures StoreFeedbackText(GetData(dialogData, startData).0, text).Ok?
    ensures var d := StoreFeedbackText(GetData(dialogData, startData).0, text).value;
      BuildFeedbackRequest(model, Find(d, ForGeminiKey).value)
        == Ok(FeedbackRequest(model, prompt, [Str(text), GetOr(dialogData, DisciplineNameKey, Unknown),
                                              GetOr(dialogData, TaskNameKey, Unknown),
                                              GetOr(task, TaskDescriptionKey, Unknown), GetOr(entry, SyllabusKey, Unknown)]))
  {
    KnownTaskLookups(dialogData, startData, id, entry, taskId, task);
    var f := Lookups(dialogData, startData).value;
    MergeSetsFourFields(dialogData, f, g);
    GetDataPersistsMerge(dialogData, startData);
    MergedThenTypedRequest(dialogData, f, g, prompt, text, model);
  }
}
