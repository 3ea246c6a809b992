/** The request construction of src/utils/genai.py. The Gemini client, the
    file upload and the generation call are foreign; what is modelled is the
    request each function hands to them: the model name, the system
    instruction and the ordered contents of a feedback request, and the
    rewound audio buffer, its upload options and the ordered contents of a
    transcript request. The uploaded file's handle, returned by the upload
    service, is a parameter. */
module GenAI {

  import opened Values
  import opened Enums

  newtype byte = x: int | 0 <= x < 256

  /** A feedback request: the generation config carries the system
      instruction and nothing else (in particular no temperature). */
  datatype FeedbackRequest = FeedbackRequest(model: string, systemInstruction: Value, contents: seq<Value>)

  /** The keys `generate_feedback` subscripts, in evaluation order: the
      system instruction first, then the five contents. */
  const FeedbackKeys: seq<string> := [
    PromptKey, FeedbackTextKey, DisciplineNameKey,
    TaskNameKey, TaskDescriptionKey, SyllabusKey]

  /** The first of `keys` that the dictionary lacks. */
  function FirstMissing(d: Dict, keys: seq<string>): (r: Option<string>)
    ensures r.None? <==> forall i :: 0 <= i < |keys| ==> HasKey(d, keys[i])
    ensures r.Some? ==>
      exists i :: 0 <= i < |keys| && keys[i] == r.value && !HasKey(d, r.value)
        && forall j :: 0 <= j < i ==> HasKey(d, keys[j])
    decreases |keys|
  {
    if keys == [] then None
    else if !HasKey(d, keys[0]) then Some(keys[0])
    else
      var r := FirstMissing(d, keys[1..]);
      assert forall i :: 1 <= i < |keys| ==> keys[i] == keys[1..][i - 1];
      r
  }

  /** `[v[k] for k in keys]`, evaluated left to right: the first failing
      subscript raises. */
  function IndexAll(v: Value, keys: seq<string>): (r: Result<seq<Value>>)
    requires keys != []
    ensures r.Ok? <==> v.Obj? && FirstMissing(v.fields, keys).None?
    ensures r.Ok? ==> |r.value| == |keys| && forall i :: 0 <= i < |keys| ==> Some(r.value[i]) == Find(v.fields, keys[i])
    ensures r.Err? ==> r.error == if v.Obj? then KeyError(FirstMissing(v.fields, keys).value) else TypeError
    decreases |keys|
  {
    var x :- Index(v, keys[0]);
    if |keys| == 1 then Ok([x])
    else
      var xs :- IndexAll(v, keys[1..]);
      assert forall i :: 1 <= i < |keys| ==> keys[i] == keys[1..][i - 1];
      Ok([x] + xs)
  }

  /** When every key is present, the subscripts yield the stored values. */
  lemma {:induction false} IndexAllFinds(v: Value, keys: seq<string>, values: seq<Value>)
    requires keys != [] && v.Obj? && |values| == |keys|
    requires forall i :: 0 <= i < |keys| ==> Find(v.fields, keys[i]) == Some(values[i])
    ensures IndexAll(v, keys) == Ok(values)
    decreases |keys|
  {
    if |keys| > 1 {
      assert forall i :: 0 <= i < |keys[1..]| ==> Find(v.fields, keys[1..][i]) == Some(values[1..][i]) by {
        forall i | 0 <= i < |keys[1..]| ensures Find(v.fields, keys[1..][i]) == Some(values[1..][i]) {
          assert keys[1..][i] == keys[i + 1] && values[1..][i] == values[i + 1];
        }
      }
      IndexAllFinds(v, keys[1..], values[1..]);
      assert values == [values[0]] + values[1..];
    } else {
      assert values == [values[0]];
    }
    assert Index(v, keys[0]) == Ok(values[0]);
  }

  /** The request `generate_feedback` sends for the data it is given: all
      six keys are read by subscript, so the first missing one raises and no
      request is built. */
  function BuildFeedbackRequest(model: string, data: Value): (r: Result<FeedbackRequest>)
    ensures r.Ok? <==> data.Obj? && FirstMissing(data.fields, FeedbackKeys).None?
    ensures r.Err? ==> r.error == if data.Obj? then KeyError(FirstMissing(data.fields, FeedbackKeys).value) else TypeError
    ensures r.Ok? ==>
      && r.value.model == model
      && Some(r.value.systemInstruction) == Find(data.fields, PromptKey)
      && |r.value.contents| == 5
      && forall i :: 0 <= i < 5 ==> Some(r.value.contents[i]) == Find(data.fields, FeedbackKeys[i + 1])
  {
    var vs :- IndexAll(data, FeedbackKeys);
    Ok(FeedbackRequest(model, vs[0], vs[1..]))
  }

  /** The upload options of the voice buffer. */
  datatype UploadConfig = UploadConfig(mimeType: string, displayName: string)

  const VoiceUpload: UploadConfig := UploadConfig("audio/ogg", "voice.ogg")

  datatype Upload = Upload(content: seq<byte>, config: UploadConfig)

  /** One element of a transcript request's contents. */
  datatype Part = Prompt(text: string) | Uploaded(handle: string)

  datatype TranscriptRequest = TranscriptRequest(model: string, contents: seq<Part>)

  const TranscriptPrompt: string := "Generate a transcript of the speech."

  /** An in-memory byte stream (`io.BytesIO`): its bytes and the current
      position. */
  class BytesBuffer {
    var data: seq<byte>
    var pos: nat

    predicate Valid()
      reads this
    {
      pos <= |data|
    }

    constructor ()
      ensures Valid() && data == [] && pos == 0
    {
      data := [];
      pos := 0;
    }

    /** `write(b)`: overwrite from the position onwards, extending the
        buffer as needed, and move the position past the written bytes. */
    method Write(b: seq<byte>)
      requires Valid()
      modifies this
      ensures Valid()
      ensures pos == old(pos) + |b|
      ensures data[..old(pos)] == old(data[..pos])
      ensures data[old(pos)..pos] == b
      ensures |data| == if old(pos) + |b| <= old(|data|) then old(|data|) else pos
      ensures pos < |data| ==> data[pos..] == old(data[pos + |b|..])
    {
      var rest := if pos + |b| < |data| then data[pos + |b|..] else [];
      data := data[..pos] + b + rest;
      pos := pos + |b|;
    }

    /** `seek(0)`. */
    method Rewind()
      modifies this
      ensures Valid() && data == old(data) && pos == 0
    {
      pos := 0;
    }

    /** `read()`: everything from the position to the end. */
    method Read() returns (r: seq<byte>)
      requires Valid()
      modifies this
      ensures Valid()
      ensures r == old(data[pos..]) && data == old(data) && pos == |data|
    {
      r := data[pos..];
      pos := |data|;
    }
  }

  /** `generate_transcript` up to the foreign calls: the buffer is rewound,
      the upload carries all of its bytes as OGG audio named voice.ogg, and
      the request asks for a transcript of the uploaded file, prompt first. */
  method GenerateTranscript(buf: BytesBuffer, model: string, handle: string)
      returns (upload: Upload, request: TranscriptRequest)
    requires buf.Valid()
    modifies buf
    ensures upload == Upload(old(buf.data), VoiceUpload)
    ensures upload.config.mimeType == "audio/ogg"
    ensures request == TranscriptRequest(model, [Prompt(TranscriptPrompt), Uploaded(handle)])
    ensures buf.data == old(buf.data) && buf.Valid()
  {
    buf.Rewind();
    var content := buf.Read();
    assert content == buf.data[0..];
    upload := Upload(content, VoiceUpload);
    request := TranscriptRequest(model, [Prompt(TranscriptPrompt), Uploaded(handle)]);
  }

  /** A request built from a dictionary holding all six keys carries exactly
      those values: the prompt as system instruction and the contents in the
      order feedback text, discipline, task, description, syllabus. */
  lemma FeedbackRequestContents(model: string, d: Dict, prompt: Value, feedback: Value, discipline: Value,
                                task: Value, description: Value, syllabus: Value)
    requires Find(d, PromptKey) == Some(prompt)
    requires Find(d, FeedbackTextKey) == Some(feedback)
    requires Find(d, DisciplineNameKey) == Some(discipline)
    requires Find(d, TaskNameKey) == Some(task)
    requires Find(d, TaskDescriptionKey) == Some(description)
    requires Find(d, SyllabusKey) == Some(syllabus)
    ensures BuildFeedbackRequest(model, Obj(d))
      == Ok(FeedbackRequest(model, prompt, [feedback, discipline, task, description, syllabus]))
  {
    var values := [prompt, feedback, discipline, task, description, syllabus];
    assert forall i :: 0 <= i < |FeedbackKeys| ==> Find(d, FeedbackKeys[i]) == Some(values[i]);
    IndexAllFinds(Obj(d), FeedbackKeys, values);
    assert values[1..] == [feedback, discipline, task, description, syllabus];
  }

  /** A missing prompt is reported before any other missing key. */
  lemma MissingPromptReportedFirst(model: string, d: Dict)
    requires !HasKey(d, PromptKey)
    ensures BuildFeedbackRequest(model, Obj(d)) == Err(KeyError("prompt"))
  {
  }
}
