/**
 * The application shell: how `handleGenerate` acquires the text to speak,
 * rejects blank text, calls the speech service, builds the result shown to
 * the user and prepends a capped history entry; and the history delete.
 *
 * The component's state (`isLoading`, `result`, `error`, `history`) is the
 * class `App`; each React state setter is an assignment to one of its fields.
 * Host values that the code draws from the environment (the random id,
 * `Date.now()`, the object URL of the blob) are parameters.
 */
module AppState {
  import opened Wrappers
  import opened Bytes
  import opened Types
  import opened GeminiService
  import Base64
  import Wav

  // ---------------------------------------------------------------------------
  // String.prototype.trim

  /**
   * The characters `trim` removes: ECMAScript WhiteSpace (tab, vertical tab,
   * form feed, space, no-break space, byte order mark and the category Zs
   * spaces) and LineTerminator (line feed, carriage return, line and
   * paragraph separators).
   */
  predicate IsJsWhitespace(c: char) {
    || c == '\t' || c == '\U{000B}' || c == '\U{000C}' || c == ' ' || c == '\U{00A0}' || c == '\U{FEFF}'
    || c == '\U{1680}' || ('\U{2000}' <= c <= '\U{200A}') || c == '\U{202F}' || c == '\U{205F}' || c == '\U{3000}'
    || c == '\n' || c == '\r' || c == '\U{2028}' || c == '\U{2029}'
  }

  /** Leading whitespace removed. */
  function TrimStart(s: string): string {
    if |s| > 0 && IsJsWhitespace(s[0]) then TrimStart(s[1..]) else s
  }

  /** Trailing whitespace removed. */
  function TrimEnd(s: string): string {
    if |s| > 0 && IsJsWhitespace(s[|s| - 1]) then TrimEnd(s[..|s| - 1]) else s
  }

  /**
   * `String.prototype.trim`: a contiguous piece of `s` that neither starts nor
   * ends with whitespace, with only whitespace before and after it.
   */
  function Trim(s: string): (r: string)
    ensures |r| <= |s|
    ensures r == [] || (!IsJsWhitespace(r[0]) && !IsJsWhitespace(r[|r| - 1]))
    ensures exists i :: TrimmedAt(s, r, i)
  {
    var t := TrimStart(s);
    TrimStartSpec(s);
    TrimEndSpec(t);
    var r := TrimEnd(t);
    var i := |s| - |t|;
    assert s[i..i + |r|] == r by {
      assert t == s[i..];
      assert r == t[..|r|];
    }
    assert forall k :: i + |r| <= k < |s| ==> IsJsWhitespace(s[k]) by {
      forall k | i + |r| <= k < |s| ensures IsJsWhitespace(s[k]) {
        assert s[k] == t[k - i];
      }
    }
    assert TrimmedAt(s, r, i);
    r
  }

  /** `r` occurs in `s` at offset `i`, with only whitespace before and after it. */
  predicate TrimmedAt(s: string, r: string, i: int) {
    && 0 <= i <= |s| - |r| && s[i..i + |r|] == r
    && (forall k :: 0 <= k < i ==> IsJsWhitespace(s[k]))
    && (forall k :: i + |r| <= k < |s| ==> IsJsWhitespace(s[k]))
  }

  /** `!s.trim()`: the trimmed text is the empty, falsy string. */
  predicate IsBlank(s: string) {
    Trim(s) == ""
  }

  /** `TrimStart` keeps a suffix that does not start with whitespace, and everything it drops is whitespace. */
  lemma {:induction false} TrimStartSpec(s: string)
    ensures var r := TrimStart(s);
      && |r| <= |s| && r == s[|s| - |r|..]
      && (r == [] || !IsJsWhitespace(r[0]))
      && forall i :: 0 <= i < |s| - |r| ==> IsJsWhitespace(s[i])
    decreases |s|
  {
    if |s| > 0 && IsJsWhitespace(s[0]) {
      TrimStartSpec(s[1..]);
      var r := TrimStart(s[1..]);
      assert s[1..][|s| - 1 - |r|..] == s[|s| - |r|..];
      forall i | 1 <= i < |s| - |r|
        ensures IsJsWhitespace(s[i])
      {
        assert s[i] == s[1..][i - 1];
      }
    }
  }

  /** `TrimEnd` keeps a prefix that does not end with whitespace, and everything it drops is whitespace. */
  lemma {:induction false} TrimEndSpec(s: string)
    ensures var r := TrimEnd(s);
      && |r| <= |s| && r == s[..|r|]
      && (r == [] || !IsJsWhitespace(r[|r| - 1]))
      && forall i :: |r| <= i < |s| ==> IsJsWhitespace(s[i])
    decreases |s|
  {
    if |s| > 0 && IsJsWhitespace(s[|s| - 1]) {
      TrimEndSpec(s[..|s| - 1]);
      var r := TrimEnd(s[..|s| - 1]);
      assert s[..|s| - 1][..|r|] == s[..|r|];
      forall i | |r| <= i < |s| - 1
        ensures IsJsWhitespace(s[i])
      {
        assert s[i] == s[..|s| - 1][i];
      }
    }
  }

  /** Text is blank exactly when every one of its characters is whitespace; in particular "" is blank. */
  lemma BlankIffAllWhitespace(s: string)
    ensures IsBlank(s) <==> forall i :: 0 <= i < |s| ==> IsJsWhitespace(s[i])
  {
    TrimStartSpec(s);
    TrimEndSpec(TrimStart(s));
  }

  // ---------------------------------------------------------------------------
  // History

  const HistoryCap: nat := 10

  function Min(a: int, b: int): int {
    if a <= b then a else b
  }

  /**
   * `[newItem, ...prev].slice(0, 10)`: the new item first, then the older
   * entries in order, truncated to the ten most recent.
   */
  function PushHistory(newItem: HistoryItem, prev: seq<HistoryItem>): (r: seq<HistoryItem>)
    ensures |r| == Min(|prev| + 1, HistoryCap)
    ensures r[0] == newItem
    ensures r[1..] == prev[..|r| - 1]
  {
    var all := [newItem] + prev;
    if |all| <= HistoryCap then all else all[..HistoryCap]
  }

  /** Pushing two items in turn gives the two newest first, then the older entries, under one cap. */
  lemma PushHistoryTwice(a: HistoryItem, b: HistoryItem, h: seq<HistoryItem>)
    ensures PushHistory(b, PushHistory(a, h)) == ([b, a] + h)[..Min(|h| + 2, HistoryCap)]
  {
    var once := PushHistory(a, h);
    var twice := PushHistory(b, once);
    var expected := ([b, a] + h)[..Min(|h| + 2, HistoryCap)];
    assert |twice| == |expected|;
    forall k | 0 <= k < |twice|
      ensures twice[k] == expected[k]
    {
      if k >= 2 {
        assert twice[k] == once[k - 1];
        assert once[k - 1] == h[k - 2];
      }
    }
  }

  /** Every history entry of a run: the host's random id and clock, the spoken text and three request fields. */
  function NewItem(id: string, timestamp: int, params: GenerationRequest, textToSpeak: string): (item: HistoryItem)
    ensures item.text == textToSpeak && item.voice == params.voice
    ensures item.emotion == params.emotion && item.contentType == params.contentType
  {
    HistoryItem(id, timestamp, textToSpeak, params.voice, params.emotion, params.contentType)
  }

  /** `a` appears in `b` in the same order, possibly with other elements in between. */
  predicate IsSubsequence<T(==)>(a: seq<T>, b: seq<T>)
    decreases |b|
  {
    if a == [] then true
    else if b == [] then false
    else if a[0] == b[0] then IsSubsequence(a[1..], b[1..])
    else IsSubsequence(a, b[1..])
  }

  /** `h.filter(i => i.id !== id)`: no remaining entry carries `id`, and the survivors keep their order. */
  function DeleteById(h: seq<HistoryItem>, id: string): (r: seq<HistoryItem>)
    ensures forall k :: 0 <= k < |r| ==> r[k].id != id
    ensures IsSubsequence(r, h)
  {
    if h == [] then []
    else if h[0].id == id then DeleteById(h[1..], id)
      else [h[0]] + DeleteById(h[1..], id)
  }

  /** Every entry that does not carry `id` survives as many times as it occurred. */
  lemma {:induction false} DeleteKeepsOthers(h: seq<HistoryItem>, id: string, x: HistoryItem)
    requires x.id != id
    ensures multiset(DeleteById(h, id))[x] == multiset(h)[x]
    decreases |h|
  {
    if h != [] {
      assert h == [h[0]] + h[1..];
      DeleteKeepsOthers(h[1..], id, x);
    }
  }

  /** Filtering the concatenation of two histories filters each part. */
  lemma {:induction false} DeleteDistributes(a: seq<HistoryItem>, b: seq<HistoryItem>, id: string)
    ensures DeleteById(a + b, id) == DeleteById(a, id) + DeleteById(b, id)
    decreases |a|
  {
    if a == [] {
      assert a + b == b;
    } else {
      assert (a + b)[0] == a[0];
      assert (a + b)[1..] == a[1..] + b;
      DeleteDistributes(a[1..], b, id);
      if a[0].id == id {
        assert DeleteById(a + b, id) == DeleteById(a[1..] + b, id);
      } else {
        assert DeleteById(a + b, id) == [a[0]] + DeleteById(a[1..] + b, id);
      }
    }
  }

  /** A history with no entry carrying `id` is left as it is. */
  lemma {:induction false} DeleteAbsentId(h: seq<HistoryItem>, id: string)
    requires forall k :: 0 <= k < |h| ==> h[k].id != id
    ensures DeleteById(h, id) == h
    decreases |h|
  {
    if h != [] {
      DeleteAbsentId(h[1..], id);
    }
  }

  /** Deleting twice with the same id deletes nothing more. */
  lemma DeleteIdempotent(h: seq<HistoryItem>, id: string)
    ensures DeleteById(DeleteById(h, id), id) == DeleteById(h, id)
  {
    DeleteAbsentId(DeleteById(h, id), id);
  }

  /**
   * Deleting a freshly generated entry, whose id no older entry carries,
   * gives back the history it was pushed onto, less any entry the cap of ten
   * dropped.
   */
  lemma DeleteUndoesPush(x: HistoryItem, h: seq<HistoryItem>)
    requires forall k :: 0 <= k < |h| ==> h[k].id != x.id
    ensures DeleteById(PushHistory(x, h), x.id) == h[..Min(|h|, HistoryCap - 1)]
  {
    var kept := h[..Min(|h|, HistoryCap - 1)];
    assert PushHistory(x, h) == [x] + kept;
    DeleteDistributes([x], kept, x.id);
    assert DeleteById([x], x.id) == [] by {
      assert [x][1..] == [];
    }
    DeleteAbsentId(kept, x.id);
  }

  // ---------------------------------------------------------------------------
  // One generation run

  /** What a successful run produced: the spoken text and the WAVE bytes. */
  datatype Spoken = Spoken(text: string, audio: seq<byte>)

  /** Text acquisition: the generated text in AI mode, `manualText || ""` in manual mode. */
  function AcquiredText(params: GenerationRequest, reply: TextReply): Result<string, Error> {
    match params.mode
    case AI => GeneratedText(reply)
    case Manual => Success(params.manualText.GetOr(""))
  }

  /** The calls text acquisition makes: one text call in AI mode, none in manual mode. */
  function AcquisitionCalls(params: GenerationRequest): seq<Call> {
    match params.mode
    case AI => [TextGeneration(TextPromptParts(params))]
    case Manual => []
  }

  /** The text a run speaks, or why it stops before synthesis: a failed text call, or blank text ("Texto vazio."). */
  function TextToSpeak(params: GenerationRequest, replies: Replies): (r: Result<string, Error>)
    ensures r.Success? ==> !IsBlank(r.value)
  {
    match AcquiredText(params, replies.generatedText)
    case Failure(e) => Failure(e)
    case Success(t) => if IsBlank(t) then Failure(EmptyText) else Success(t)
  }

  /**
   * The outcome of the `try` block of `handleGenerate` up to the audio: the
   * text to speak, synthesised as is (untrimmed) and framed as WAVE.
   */
  function GenerationOutcome(params: GenerationRequest, replies: Replies): Result<Spoken, Error> {
    match TextToSpeak(params, replies)
    case Failure(e) => Failure(e)
    case Success(t) =>
      match SynthesisOutcome(replies.synthesis)
      case Failure(e) => Failure(e)
      case Success(audio) => Success(Spoken(t, audio))
  }

  /** The synthesis call of a run, with the request's voice, emotion, accent, content type and sample. */
  function SynthesisCall(params: GenerationRequest, textToSpeak: string, analysis: TextReply): Call {
    SpeechSynthesis(SpeechPromptFor(textToSpeak, params.voice, EmotionValue(params.emotion), params.accent,
                                    Some(params.contentType), VoiceProfile(params.voiceSampleBase64, analysis)),
                    VoiceValue(EffectiveVoice(params.voice)))
  }

  /**
   * The remote calls of a run, in order: the text call in AI mode; then, only
   * if there is text to speak, the analysis call when a sample is present and
   * the synthesis call.
   */
  function GenerationCalls(params: GenerationRequest, replies: Replies): seq<Call> {
    AcquisitionCalls(params)
    + match TextToSpeak(params, replies)
      case Failure(_) => []
      case Success(t) =>
        AnalysisCalls(params.voiceSampleBase64, params.voiceSampleMimeType) + [SynthesisCall(params, t, replies.analysis)]
  }

  /** A successful run speaks the generated text in AI mode and the manual text (or "") in manual mode, never blank text. */
  lemma SpokenTextBySource(params: GenerationRequest, replies: Replies)
    requires GenerationOutcome(params, replies).Success?
    ensures var spoken := GenerationOutcome(params, replies).value;
      && !IsBlank(spoken.text)
      && (params.mode == AI ==> replies.generatedText == TextReplied(Some(spoken.text)))
      && (params.mode == Manual ==> spoken.text == params.manualText.GetOr(""))
      && Success(spoken.audio) == SynthesisOutcome(replies.synthesis)
  {
  }

  /** Blank text fails with "Texto vazio." before any synthesis; in manual mode no remote call is made at all. */
  lemma BlankTextIsNeverSpoken(params: GenerationRequest, replies: Replies)
    requires AcquiredText(params, replies.generatedText).Success?
    requires IsBlank(AcquiredText(params, replies.generatedText).value)
    ensures GenerationOutcome(params, replies) == Failure(EmptyText)
    ensures Message(GenerationOutcome(params, replies).error) == "Texto vazio."
    ensures GenerationCalls(params, replies) == AcquisitionCalls(params)
    ensures forall c :: c in GenerationCalls(params, replies) ==> c.TextGeneration?
    ensures params.mode == Manual ==> GenerationCalls(params, replies) == []
  {
  }

  /** A manual run whose text is absent or empty makes no remote call. */
  lemma EmptyManualTextMakesNoCall(params: GenerationRequest, replies: Replies)
    requires params.mode == Manual && !Present(params.manualText)
    ensures GenerationOutcome(params, replies) == Failure(EmptyText)
    ensures GenerationCalls(params, replies) == []
  {
    assert params.manualText.GetOr("") == "";
    assert IsBlank("");
  }

  /**
   * A successful run issues, in order: the text call (AI mode only), the
   * analysis call (only with a sample), then the single synthesis call of the
   * spoken text; its audio is the 44-byte header followed by the decoded payload.
   */
  lemma SuccessfulRunShape(params: GenerationRequest, replies: Replies)
    requires GenerationOutcome(params, replies).Success?
    ensures var spoken := GenerationOutcome(params, replies).value;
      && GenerationCalls(params, replies) ==
           AcquisitionCalls(params)
           + (AnalysisCalls(params.voiceSampleBase64, params.voiceSampleMimeType)
              + [SynthesisCall(params, spoken.text, replies.analysis)])
      && SynthesisCall(params, spoken.text, replies.analysis).voiceName == VoiceValue(EffectiveVoice(params.voice))
      && replies.synthesis.AudioReplied? && Present(replies.synthesis.data)
      && Base64.Decode(replies.synthesis.data.value).Some?
      && var pcm := Base64.Decode(replies.synthesis.data.value).value;
      && spoken.audio == Wav.WavHeader(|pcm|, SampleRate) + pcm
      && |spoken.audio| == Wav.HeaderSize + |pcm|
  {
    SynthesisOutcomeCases(replies.synthesis);
  }

  /**
   * For a fixed synthesis reply, the run's outcome is the same whatever the
   * analysis reply: a failing analysis never aborts the run. (For the cloned
   * voice the analysis does reach the synthesis prompt, so the audio a real
   * provider returns may depend on it; here that reply is an input.) For a
   * preset voice the calls do not depend on the analysis reply either.
   */
  lemma OutcomeIgnoresAnalysis(params: GenerationRequest, replies: Replies, analysis: TextReply)
    ensures GenerationOutcome(params, replies) ==
            GenerationOutcome(params, Replies(replies.generatedText, analysis, replies.synthesis))
    ensures params.voice != Cloned ==>
            GenerationCalls(params, replies) ==
            GenerationCalls(params, Replies(replies.generatedText, analysis, replies.synthesis))
  {
    var other := Replies(replies.generatedText, analysis, replies.synthesis);
    assert TextToSpeak(params, replies) == TextToSpeak(params, other);
    if params.voice != Cloned {
      var p1 := VoiceProfile(params.voiceSampleBase64, replies.analysis);
      var p2 := VoiceProfile(params.voiceSampleBase64, analysis);
      assert ChooseCloningInstruction(params.voice, p1) == ChooseCloningInstruction(params.voice, p2);
      if TextToSpeak(params, replies).Success? {
        var t := TextToSpeak(params, replies).value;
        assert SynthesisCall(params, t, replies.analysis) == SynthesisCall(params, t, analysis);
      }
    }
  }

  /** The text acquisition step of `handleGenerate`. */
  method AcquireTextToSpeak(params: GenerationRequest, reply: TextReply) returns (r: Result<string, Error>, calls: seq<Call>)
    ensures r == AcquiredText(params, reply)
    ensures calls == AcquisitionCalls(params)
  {
    if params.mode == AI {
      var call;
      r, call := GenerateText(params, reply);
      calls := [call];
    } else {
      r := Success(if Present(params.manualText) then params.manualText.value else "");
      calls := [];
    }
  }

  /** The `try` block of `handleGenerate` up to the audio. */
  method RunGeneration(params: GenerationRequest, replies: Replies) returns (r: Result<Spoken, Error>, calls: seq<Call>)
    ensures r == GenerationOutcome(params, replies)
    ensures calls == GenerationCalls(params, replies)
  {
    var acquired;
    acquired, calls := AcquireTextToSpeak(params, replies.generatedText);
    if acquired.Failure? {
      r := Failure(acquired.error);
      return;
    }
    var textToSpeak := acquired.value;
    if IsBlank(textToSpeak) {
      r := Failure(EmptyText);
      return;
    }
    var audio, speechCalls := GenerateSpeech(textToSpeak, params.voice, EmotionValue(params.emotion), params.accent,
                                             Some(params.contentType), params.voiceSampleBase64,
                                             params.voiceSampleMimeType, replies.analysis, replies.synthesis);
    assert audio == SynthesisOutcome(replies.synthesis);
    assert speechCalls == AnalysisCalls(params.voiceSampleBase64, params.voiceSampleMimeType)
                          + [SynthesisCall(params, textToSpeak, replies.analysis)];
    calls := calls + speechCalls;
    if audio.Failure? {
      r := Failure(audio.error);
    } else {
      r := Success(Spoken(textToSpeak, audio.value));
    }
  }

  // ---------------------------------------------------------------------------
  // The component state

  /** `err.message || "Erro ao calibrar sotaque."`: the message shown for a thrown error. */
  function ErrorText(e: Error): (shown: string)
    ensures shown != ""
    ensures Message(e) != "" ==> shown == Message(e)
    ensures Message(e) == "" ==> shown == "Erro ao calibrar sotaque."
  {
    if Message(e) != "" then Message(e) else "Erro ao calibrar sotaque."
  }

  /** The result card of a successful run: the spoken text, its audio, the voice's label and the content type. */
  function ResponseFor(params: GenerationRequest, spoken: Spoken, audioUrl: string): (r: GenerationResponse)
    ensures r.text == spoken.text && r.audioBlob == Some(spoken.audio) && r.audioUrl == Some(audioUrl)
    ensures VoiceLabels(VoiceValue(params.voice)) == Some(r.voiceLabel) && r.voiceLabel != ""
    ensures r.styleLabel == ContentValue(params.contentType)
  {
    VoiceLabelsAreTotal(params.voice);
    GenerationResponse(spoken.text, Some(audioUrl), Some(spoken.audio), VoiceLabelOf(params.voice),
                       ContentValue(params.contentType))
  }

  class App {
    var isLoading: bool
    var result: Option<GenerationResponse>
    var error: Option<string>
    var history: seq<HistoryItem>

    /** The initial state: idle, nothing shown, an empty history. */
    constructor()
      ensures !isLoading && result == None && error == None && history == []
    {
      isLoading := false;
      result := None;
      error := None;
      history := [];
    }

    /** The start of `handleGenerate`: loading, with the previous error and result cleared. */
    method BeginGenerate()
      modifies this
      ensures isLoading && error == None && result == None
      ensures history == old(history)
    {
      isLoading := true;
      error := None;
      result := None;
    }

    /**
     * The rest of `handleGenerate` once the run has an outcome: on success the
     * result card and the new history entry, otherwise only the error message.
     */
    method ShowOutcome(outcome: Result<Spoken, Error>, params: GenerationRequest, id: string, timestamp: int,
                       audioUrl: string)
      modifies this
      ensures isLoading == old(isLoading)
      ensures match outcome
        case Success(spoken) =>
          && result == Some(ResponseFor(params, spoken, audioUrl))
          && error == old(error)
          && history == PushHistory(NewItem(id, timestamp, params, spoken.text), old(history))
        case Failure(e) =>
          && result == old(result)
          && error == Some(ErrorText(e))
          && history == old(history)
    {
      match outcome {
        case Success(spoken) =>
          result := Some(ResponseFor(params, spoken, audioUrl));
          history := PushHistory(NewItem(id, timestamp, params, spoken.text), history);
        case Failure(e) =>
          error := Some(ErrorText(e));
      }
    }

    /**
     * `handleGenerate`: on success the result card is shown and the new item
     * is prepended to the capped history; on any thrown error only the error
     * message is set and the history is untouched; loading ends either way.
     */
    method HandleGenerate(params: GenerationRequest, replies: Replies, id: string, timestamp: int, audioUrl: string)
      returns (calls: seq<Call>)
      modifies this
      ensures calls == GenerationCalls(params, replies)
      ensures !isLoading && (result == None || error == None)
      ensures |old(history)| <= HistoryCap ==> |history| <= HistoryCap
      ensures match GenerationOutcome(params, replies)
        case Success(spoken) =>
          && result == Some(ResponseFor(params, spoken, audioUrl))
          && error == None
          && history == PushHistory(NewItem(id, timestamp, params, spoken.text), old(history))
        case Failure(e) =>
          && result == None
          && error == Some(ErrorText(e))
          && history == old(history)
    {
      BeginGenerate();
      var outcome;
      outcome, calls := RunGeneration(params, replies);
      ShowOutcome(outcome, params, id, timestamp, audioUrl);
      isLoading := false;
    }

    /** The history list's delete action. */
    method DeleteHistoryItem(id: string)
      modifies this
      ensures history == DeleteById(old(history), id)
      ensures isLoading == old(isLoading) && result == old(result) && error == old(error)
    {
      history := DeleteById(history, id);
    }

    /** The result card's regenerate action: the card is dismissed, nothing else changes. */
    method Regenerate()
      modifies this
      ensures result == None
      ensures isLoading == old(isLoading) && error == old(error) && history == old(history)
    {
      result := None;
    }
  }
}
