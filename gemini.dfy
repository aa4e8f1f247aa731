/**
 * The service layer: prompt assembly for text generation, voice-sample
 * analysis, persona selection and prompt assembly for speech synthesis,
 * and the decoding and framing of the returned audio.
 *
 * Remote `generateContent` calls are not modelled; each is replaced by the
 * reply it produced (a `TextReply` or `AudioReply` supplied by the caller),
 * and every operation also returns the calls it issued, in order, so that
 * which calls happen, with what payload, can be stated.
 */
module GeminiService {
  import opened Wrappers
  import opened Bytes
  import opened Types
  import Base64
  import Wav

  /** What a text call produced: `response.text` (possibly undefined), or the message of what it threw. */
  datatype TextReply = TextReplied(text: Option<string>) | TextThrew(message: string)

  /** What the speech call produced: the inline audio data of its first part (possibly absent), or a throw. */
  datatype AudioReply = AudioReplied(data: Option<string>) | AudioThrew(message: string)

  /** The replies one generation run may receive, one per kind of remote call. */
  datatype Replies = Replies(generatedText: TextReply, analysis: TextReply, synthesis: AudioReply)

  /** A part of a multimodal request. */
  datatype Part = InlineAudio(data: string, mimeType: string) | TextPart(text: string)

  /** A remote call, with the payload that decides its reply. */
  datatype Call =
    | TextGeneration(parts: seq<Part>)
    | VoiceAnalysis(parts: seq<Part>)
    | SpeechSynthesis(prompt: string, voiceName: string)

  /** The errors a run can throw. */
  datatype Error =
    | EmptyText                 // "Texto vazio."
    | NoAudio                   // "Erro na síntese."
    | InvalidBase64             // the exception `atob` throws
    | Remote(message: string)   // whatever a remote call threw

  /**
   * `err.message` of each error. The message of `atob`'s exception is
   * browser-specific; the exception's standard name stands for it.
   */
  function Message(e: Error): (m: string)
    ensures e.Remote? ==> m == e.message
    ensures !e.Remote? ==> m != ""
  {
    match e
    case EmptyText => "Texto vazio."
    case NoAudio => "Erro na síntese."
    case InvalidBase64 => "InvalidCharacterError"
    case Remote(m) => m
  }

  /** A result together with the remote calls issued to produce it. */
  datatype Run<T> = Run(outcome: Result<T, Error>, calls: seq<Call>)

  /** JavaScript truthiness of an optional string: present and non-empty. */
  predicate Present(o: Option<string>) {
    o.Some? && o.value != ""
  }

  /** `o || d` on an optional string. */
  function OrDefault(o: Option<string>, d: string): (r: string)
    ensures Present(o) ==> r == o.value
    ensures !Present(o) ==> r == d
  {
    if Present(o) then o.value else d
  }

  const DefaultMimeType := "audio/mpeg"
  const SampleRate := 24000

  predicate IsPrefix(x: string, s: string) {
    |x| <= |s| && s[..|x|] == x
  }

  /** `s` contains `x` as a contiguous piece. */
  predicate Contains(s: string, x: string)
    decreases |s|
  {
    IsPrefix(x, s) || (|s| > 0 && Contains(s[1..], x))
  }

  /** `s` contains `x`, and after it, not overlapping it, `y`. */
  predicate ContainsInOrder(s: string, x: string, y: string)
    decreases |s|
  {
    (IsPrefix(x, s) && Contains(s[|x|..], y)) || (|s| > 0 && ContainsInOrder(s[1..], x, y))
  }

  lemma {:induction false} InfixContained(a: string, x: string, b: string)
    ensures Contains(a + x + b, x)
    decreases |a|
  {
    if |a| == 0 {
      assert a + x + b == x + b;
      assert (x + b)[..|x|] == x;
    } else {
      assert (a + x + b)[1..] == a[1..] + x + b;
      InfixContained(a[1..], x, b);
    }
  }

  lemma {:induction false} InfixesInOrder(a: string, x: string, b: string, y: string, c: string)
    ensures ContainsInOrder(a + x + b + y + c, x, y)
    decreases |a|
  {
    if |a| == 0 {
      var s := x + b + y + c;
      assert a + x + b + y + c == s;
      assert s[..|x|] == x;
      assert s[|x|..] == b + y + c;
      InfixContained(b, y, c);
    } else {
      assert (a + x + b + y + c)[1..] == a[1..] + x + b + y + c;
      InfixesInOrder(a[1..], x, b, y, c);
    }
  }

  lemma {:induction false} ContainsAppend(s: string, w: string, x: string)
    requires Contains(s, x)
    ensures Contains(s + w, x)
    decreases |s|
  {
    if IsPrefix(x, s) {
      assert (s + w)[..|x|] == s[..|x|];
    } else {
      assert (s + w)[1..] == s[1..] + w;
      ContainsAppend(s[1..], w, x);
    }
  }

  lemma {:induction false} ContainsPrepend(u: string, s: string, x: string)
    requires Contains(s, x)
    ensures Contains(u + s, x)
    decreases |u|
  {
    if |u| > 0 {
      assert (u + s)[1..] == u[1..] + s;
      ContainsPrepend(u[1..], s, x);
    } else {
      assert u + s == s;
    }
  }

  /** Text appended after both pieces does not disturb their order. */
  lemma {:induction false} ContainsInOrderAppend(s: string, w: string, x: string, y: string)
    requires ContainsInOrder(s, x, y)
    ensures ContainsInOrder(s + w, x, y)
    decreases |s|
  {
    if IsPrefix(x, s) && Contains(s[|x|..], y) {
      assert (s + w)[..|x|] == s[..|x|];
      assert (s + w)[|x|..] == s[|x|..] + w;
      ContainsAppend(s[|x|..], w, y);
    } else {
      assert (s + w)[1..] == s[1..] + w;
      ContainsInOrderAppend(s[1..], w, x, y);
    }
  }

  /** A piece of a piece of `s` is a piece of `s`. */
  lemma {:induction false} ContainsTransitive(s: string, x: string, y: string)
    requires Contains(s, x) && Contains(x, y)
    ensures Contains(s, y)
    decreases |s|
  {
    if IsPrefix(x, s) {
      assert s == x + s[|x|..];
      ContainsAppend(x, s[|x|..], y);
    } else {
      ContainsTransitive(s[1..], x, y);
    }
  }

  lemma EndsWith(a: string, t: string)
    ensures |t| <= |a + t| && (a + t)[|a + t| - |t|..] == t
  {
  }

  /** If `a` contains `x`, then `a + b + y` contains `x` and later `y`. */
  lemma {:induction false} ContainedThenSuffix(a: string, b: string, y: string, x: string)
    requires Contains(a, x)
    ensures ContainsInOrder(a + b + y, x, y)
    decreases |a|
  {
    var s := a + b + y;
    if IsPrefix(x, a) {
      assert s[..|x|] == a[..|x|];
      assert s[|x|..] == a[|x|..] + b + y;
      InfixContained(a[|x|..] + b, y, "");
      assert a[|x|..] + b + y + "" == a[|x|..] + b + y;
    } else {
      assert s[1..] == a[1..] + b + y;
      ContainedThenSuffix(a[1..], b, y, x);
    }
  }

  // ---------------------------------------------------------------------------
  // Text generation

  /**
   * The instruction for narrative text generation. Only the interpolated
   * request fields are modelled exactly; the surrounding wording is abridged.
   */
  function TextPrompt(params: GenerationRequest): string {
    TextHead + AccentValue(params.accent) + "\nEmoção: " + EmotionValue(params.emotion)
    + "\nAssunto: " + params.theme + "\nPúblico: " + params.targetAudience + TextTail
  }

  const TextHead :=
    "Roteiro em Português de Angola.\nSotaque Alvo: "
  const TextTail := "\n"

  /** The parts `generateText` pushes: the sample (when present), then the instruction. */
  function TextPromptParts(params: GenerationRequest): seq<Part> {
    (if Present(params.voiceSampleBase64)
     then [InlineAudio(params.voiceSampleBase64.value, OrDefault(params.voiceSampleMimeType, DefaultMimeType))]
     else [])
    + [TextPart(TextPrompt(params))]
  }

  /** The text-generation request attaches the sample exactly when one is present, before the instruction. */
  lemma TextPromptPartsShape(params: GenerationRequest)
    ensures var parts := TextPromptParts(params);
      && |parts| == (if Present(params.voiceSampleBase64) then 2 else 1)
      && parts[|parts| - 1] == TextPart(TextPrompt(params))
      && (Present(params.voiceSampleBase64) <==> parts[0].InlineAudio?)
      && (parts[0].InlineAudio? ==> parts[0].data == params.voiceSampleBase64.value)
  {
  }

  /** The instruction names the accent, emotion, theme and audience, in that order. */
  lemma TextPromptMentionsRequest(params: GenerationRequest)
    ensures ContainsInOrder(TextPrompt(params), AccentValue(params.accent), EmotionValue(params.emotion))
    ensures ContainsInOrder(TextPrompt(params), params.theme, params.targetAudience)
  {
    var acc, emo := AccentValue(params.accent), EmotionValue(params.emotion);
    var th, aud := params.theme, params.targetAudience;
    var upToEmotion := TextHead + acc + "\nEmoção: " + emo + "\nAssunto: ";
    InfixesInOrder(TextHead, acc, "\nEmoção: ", emo, "\nAssunto: ");
    ContainsInOrderAppend(upToEmotion, th, acc, emo);
    ContainsInOrderAppend(upToEmotion + th, "\nPúblico: ", acc, emo);
    ContainsInOrderAppend(upToEmotion + th + "\nPúblico: ", aud, acc, emo);
    ContainsInOrderAppend(upToEmotion + th + "\nPúblico: " + aud, TextTail, acc, emo);
    InfixesInOrder(upToEmotion, th, "\nPúblico: ", aud, TextTail);
  }

  /** What `generateText` returns for a reply: `response.text || ""`, or the throw. */
  function GeneratedText(reply: TextReply): (r: Result<string, Error>)
    ensures r.Failure? <==> reply.TextThrew?
    ensures reply.TextReplied? && reply.text.Some? ==> r == Success(reply.text.value)
    ensures reply.TextReplied? && reply.text.None? ==> r == Success("")
  {
    match reply
    case TextThrew(m) => Failure(Remote(m))
    case TextReplied(t) => Success(OrDefault(t, ""))
  }

  /** `generateText`: builds the parts array by pushes, issues one call, returns its text. */
  method GenerateText(params: GenerationRequest, reply: TextReply) returns (r: Result<string, Error>, call: Call)
    ensures call == TextGeneration(TextPromptParts(params))
    ensures r == GeneratedText(reply)
  {
    var promptParts: seq<Part> := [];
    if Present(params.voiceSampleBase64) {
      promptParts := promptParts + [InlineAudio(params.voiceSampleBase64.value,
                                                OrDefault(params.voiceSampleMimeType, DefaultMimeType))];
    }
    promptParts := promptParts + [TextPart(TextPrompt(params))];
    call := TextGeneration(promptParts);
    match reply {
      case TextThrew(m) =>
        r := Failure(Remote(m));
      case TextReplied(t) =>
        r := Success(OrDefault(t, ""));
    }
  }

  // ---------------------------------------------------------------------------
  // Voice-sample analysis

  /** The analysis instruction (abridged) and the description used when the analysis returns no text. */
  const AnalysisInstruction := "Analise esta voz angolana."
  const AnalysisFallback := "voz angolana autêntica"

  function AnalysisParts(base64: string, mimeType: string): seq<Part> {
    [InlineAudio(base64, mimeType), TextPart(AnalysisInstruction)]
  }

  /** `analyzeVoiceSample`: the reply's text or, when that is empty or undefined, the fallback; a throw propagates. */
  function AnalyzeVoiceSample(reply: TextReply): (r: Result<string, Error>)
    ensures r.Failure? <==> reply.TextThrew?
    ensures r.Success? ==> r.value != ""
    ensures reply.TextReplied? && Present(reply.text) ==> r == Success(reply.text.value)
    ensures reply.TextReplied? && !Present(reply.text) ==> r == Success(AnalysisFallback)
  {
    match reply
    case TextThrew(m) => Failure(Remote(m))
    case TextReplied(t) => Success(OrDefault(t, AnalysisFallback))
  }

  /**
   * The `voiceProfile` `generateSpeech` ends up with: the analysis when a
   * sample is present and the analysis did not throw, and "" otherwise (the
   * throw is caught and ignored).
   */
  function VoiceProfile(sample: Option<string>, reply: TextReply): string {
    if Present(sample) then
      match AnalyzeVoiceSample(reply)
      case Success(p) => p
      case Failure(_) => ""
    else ""
  }

  /** The profile is empty exactly when there was no sample or its analysis failed. */
  lemma VoiceProfileEmptyIff(sample: Option<string>, reply: TextReply)
    ensures VoiceProfile(sample, reply) == "" <==> !Present(sample) || reply.TextThrew?
  {
  }

  // ---------------------------------------------------------------------------
  // Persona selection

  /** The voice sent to the provider: the cloned sentinel is synthesised with Charon, every other voice as itself. */
  function EffectiveVoice(v: VoiceType): (r: VoiceType)
    ensures r != Cloned
    ensures r == v <==> v != Cloned
    ensures v == Cloned ==> r == Charon
  {
    if v == Cloned then Charon else v
  }

  /** The four vocal characters a voice can be described with; the descriptions keep their opening words. */
  datatype VocalCategory = YouthfulMale | DeepMale | Female | Announcer

  /** The classification as one total table over the voices; only the cloned voice falls through to the default. */
  function CategoryOf(v: VoiceType): (c: VocalCategory)
    ensures c == Announcer <==> v == Cloned
  {
    match v
    case Puck | Orus => YouthfulMale
    case Charon | Fenrir | Enceladus => DeepMale
    case Zephyr | Aoede | Leda | Kore => Female
    case Cloned => Announcer
  }

  function CharacterDescription(c: VocalCategory): string {
    match c
    case YouthfulMale => "Homem Angolano Jovem"
    case DeepMale => "Homem Angolano com voz madura"
    case Female => "Mulher Angolana"
    case Announcer => "Locutor Angolano"
  }

  function VocalCharacter(v: VoiceType): string {
    CharacterDescription(CategoryOf(v))
  }

  /**
   * The chain of tests in `generateSpeech`: youthful male, else deep male,
   * else one of the four female voices, else the default. It agrees with the
   * table for every voice.
   */
  method ChooseVocalCharacter(voiceType: VoiceType) returns (vocalCharacter: string)
    ensures vocalCharacter == VocalCharacter(voiceType)
  {
    var isYouthfulMale := voiceType == Puck || voiceType == Orus;
    var isDeepMale := voiceType == Charon || voiceType == Fenrir || voiceType == Enceladus;
    vocalCharacter := CharacterDescription(Announcer);
    if isYouthfulMale {
      assert CategoryOf(voiceType) == YouthfulMale;
      vocalCharacter := CharacterDescription(YouthfulMale);
    } else if isDeepMale {
      assert CategoryOf(voiceType) == DeepMale;
      vocalCharacter := CharacterDescription(DeepMale);
    } else if voiceType == Zephyr || voiceType == Aoede || voiceType == Leda || voiceType == Kore {
      assert CategoryOf(voiceType) == Female;
      vocalCharacter := CharacterDescription(Female);
    } else {
      assert CategoryOf(voiceType) == Announcer;
    }
  }

  /** Different vocal characters have different descriptions. */
  lemma CharacterDescriptionsDistinct(c: VocalCategory, d: VocalCategory)
    requires c != d
    ensures CharacterDescription(c) != CharacterDescription(d)
  {
    assert |CharacterDescription(c)| != |CharacterDescription(d)|;
  }

  /**
   * Each group of voices gets its own description and no voice outside the
   * group gets it; only the cloned voice is described as "Locutor Angolano".
   */
  lemma VocalCharacterGroups(v: VoiceType)
    ensures VocalCharacter(v) == CharacterDescription(YouthfulMale) <==> v == Puck || v == Orus
    ensures VocalCharacter(v) == CharacterDescription(DeepMale) <==> v == Charon || v == Fenrir || v == Enceladus
    ensures VocalCharacter(v) == CharacterDescription(Female) <==> v == Zephyr || v == Aoede || v == Leda || v == Kore
    ensures VocalCharacter(v) == "Locutor Angolano" <==> v == Cloned
  {
    var c := CategoryOf(v);
    forall d | d != c
      ensures VocalCharacter(v) != CharacterDescription(d)
    {
      CharacterDescriptionsDistinct(c, d);
    }
    assert "Locutor Angolano" == CharacterDescription(Announcer);
  }

  // ---------------------------------------------------------------------------
  // Speech prompt

  /** The two instructions the performance block can carry. */
  datatype CloningInstruction = CloneMode(profile: string) | GenericReference

  /** The clone instruction wraps the profile; the wording of both instructions is abridged. */
  const CloneModePrefix := "MODO CLONE REAL: "
  const CloneModeSuffix := "."
  const ReferenceInstruction := "REFERÊNCIA DE VOZ: angolana."

  function InstructionText(i: CloningInstruction): string {
    match i
    case CloneMode(profile) => CloneModePrefix + profile + CloneModeSuffix
    case GenericReference => ReferenceInstruction
  }

  /**
   * "MODO CLONE REAL" is chosen if and only if the voice is the cloned one and
   * the analysed profile is non-empty, and it then carries that profile; in
   * every other case the generic reference instruction is used.
   */
  function ChooseCloningInstruction(v: VoiceType, profile: string): (i: CloningInstruction)
    ensures i.CloneMode? <==> v == Cloned && profile != ""
    ensures i.CloneMode? ==> i.profile == profile && Contains(InstructionText(i), profile)
  {
    if v == Cloned && profile != "" then
      InfixContained(CloneModePrefix, profile, CloneModeSuffix);
      CloneMode(profile)
    else GenericReference
  }

  /** `${contentType}` in a template: the enum string, or "undefined" when the argument is omitted. */
  function StyleText(contentType: Option<ContentType>): string {
    match contentType
    case Some(c) => ContentValue(c)
    case None => "undefined"
  }

  /**
   * The phonetic directives, abridged to the two lines that interpolate
   * something: the cadence names the accent, the identity the vocal character.
   */
  function PhoneticDirectives(accent: AccentRegion, vocalCharacter: string): string {
    "CADÊNCIA: " + AccentValue(accent) + "\nIDENTIDADE: " + vocalCharacter + "\n"
  }

  /** The performance block: emotion, style and the cloning instruction. */
  function PerformanceBlock(emotion: string, style: string, cloningInstruction: string): string {
    "PERFORMANCE:\n- Emoção: " + emotion + "\n- Estilo: " + style + "\n- " + cloningInstruction + "\n"
  }

  const Mission := "Missão.\n"

  /** The text to narrate, quoted after "TEXTO:", closing the prompt. */
  function TextBlock(text: string): string {
    "TEXTO: \"" + text + "\"\n"
  }

  /** The speech prompt: directives, the performance block, the mission (abridged), the quoted text. */
  function SpeechPrompt(text: string, emotion: string, style: string, accent: AccentRegion,
                        vocalCharacter: string, cloningInstruction: string): string {
    PhoneticDirectives(accent, vocalCharacter)
    + PerformanceBlock(emotion, style, cloningInstruction)
    + Mission
    + TextBlock(text)
  }

  /**
   * The prompt ends with the text quoted after "TEXTO:"; the cloning
   * instruction comes before it; the accent, the vocal character, the
   * emotion and the style all appear in it.
   */
  lemma SpeechPromptLayout(text: string, emotion: string, style: string, accent: AccentRegion,
                           vocalCharacter: string, cloningInstruction: string)
    ensures var p := SpeechPrompt(text, emotion, style, accent, vocalCharacter, cloningInstruction);
      && |TextBlock(text)| <= |p| && p[|p| - |TextBlock(text)|..] == TextBlock(text)
      && Contains(p, cloningInstruction)
      && ContainsInOrder(p, cloningInstruction, TextBlock(text))
      && Contains(p, AccentValue(accent))
      && Contains(p, vocalCharacter)
      && Contains(p, emotion)
      && Contains(p, style)
  {
    var d := PhoneticDirectives(accent, vocalCharacter);
    var perf := PerformanceBlock(emotion, style, cloningInstruction);
    var t := TextBlock(text);
    EndsWith(d + perf + Mission, t);
    // the instruction, inside the performance block
    var lead := "PERFORMANCE:\n- Emoção: " + emotion + "\n- Estilo: " + style + "\n- ";
    InfixContained(lead, cloningInstruction, "\n");
    ContainsPrepend(d, perf, cloningInstruction);
    ContainedThenSuffix(d + perf, Mission, t, cloningInstruction);
    ContainsAppend(d + perf, Mission, cloningInstruction);
    ContainsAppend(d + perf + Mission, t, cloningInstruction);
    // the emotion, inside the performance block
    InfixContained("PERFORMANCE:\n- Emoção: ", emotion, "\n- Estilo: ");
    ContainsAppend("PERFORMANCE:\n- Emoção: " + emotion + "\n- Estilo: ", style, emotion);
    ContainsAppend("PERFORMANCE:\n- Emoção: " + emotion + "\n- Estilo: " + style, "\n- ", emotion);
    ContainsAppend(lead, cloningInstruction, emotion);
    ContainsAppend(lead + cloningInstruction, "\n", emotion);
    ContainsPrepend(d, perf, emotion);
    ContainsAppend(d + perf, Mission, emotion);
    ContainsAppend(d + perf + Mission, t, emotion);
    // the style, inside the performance block
    InfixContained("PERFORMANCE:\n- Emoção: " + emotion + "\n- Estilo: ", style, "\n- ");
    ContainsAppend("PERFORMANCE:\n- Emoção: " + emotion + "\n- Estilo: " + style + "\n- ", cloningInstruction, style);
    ContainsAppend(lead + cloningInstruction, "\n", style);
    ContainsPrepend(d, perf, style);
    ContainsAppend(d + perf, Mission, style);
    ContainsAppend(d + perf + Mission, t, style);
    // the accent and the character, inside the directives
    var head := "CADÊNCIA: ";
    var identity := "\nIDENTIDADE: ";
    var closing := "\n";
    InfixContained(head, AccentValue(accent), identity);
    ContainsAppend(head + AccentValue(accent) + identity, vocalCharacter, AccentValue(accent));
    ContainsAppend(head + AccentValue(accent) + identity + vocalCharacter, closing, AccentValue(accent));
    InfixContained(head + AccentValue(accent) + identity, vocalCharacter, closing);
    ContainsAppend(d, perf, AccentValue(accent));
    ContainsAppend(d + perf, Mission, AccentValue(accent));
    ContainsAppend(d + perf + Mission, t, AccentValue(accent));
    ContainsAppend(d, perf, vocalCharacter);
    ContainsAppend(d + perf, Mission, vocalCharacter);
    ContainsAppend(d + perf + Mission, t, vocalCharacter);
  }

  // ---------------------------------------------------------------------------
  // Speech synthesis

  /** The prompt `generateSpeech` sends for a request and the profile it obtained. */
  function SpeechPromptFor(text: string, voiceType: VoiceType, emotion: string, accent: AccentRegion,
                           contentType: Option<ContentType>, profile: string): string {
    SpeechPrompt(text, emotion, StyleText(contentType), accent, VocalCharacter(voiceType),
                 InstructionText(ChooseCloningInstruction(voiceType, profile)))
  }

  /** The container for a synthesis reply: absent audio throws, bad base 64 throws, otherwise a 24 kHz WAVE. */
  function SynthesisOutcome(reply: AudioReply): Result<seq<byte>, Error> {
    match reply
    case AudioThrew(m) => Failure(Remote(m))
    case AudioReplied(data) =>
      if !Present(data) then Failure(NoAudio)
      else
        match Base64.Decode(data.value)
        case None => Failure(InvalidBase64)
        case Some(pcm) => Success(Wav.WavHeader(|pcm|, SampleRate) + pcm)
  }

  /** The analysis call issued when, and only when, a sample is present; its MIME type defaults to MP3. */
  function AnalysisCalls(sample: Option<string>, sampleMimeType: Option<string>): seq<Call> {
    if Present(sample) then [VoiceAnalysis(AnalysisParts(sample.value, OrDefault(sampleMimeType, DefaultMimeType)))]
    else []
  }

  /** What `generateSpeech` does: the optional analysis call, then one synthesis call, then framing. */
  function Speech(text: string, voiceType: VoiceType, emotion: string, accent: AccentRegion,
                  contentType: Option<ContentType>, sample: Option<string>, sampleMimeType: Option<string>,
                  analysisReply: TextReply, synthesisReply: AudioReply): Run<seq<byte>> {
    var analysisCalls := AnalysisCalls(sample, sampleMimeType);
    var profile := VoiceProfile(sample, analysisReply);
    var prompt := SpeechPromptFor(text, voiceType, emotion, accent, contentType, profile);
    Run(SynthesisOutcome(synthesisReply),
        analysisCalls + [SpeechSynthesis(prompt, VoiceValue(EffectiveVoice(voiceType)))])
  }

  /**
   * The synthesis outcome: a missing or empty payload throws "Erro na
   * síntese."; a payload that decodes to `pcm` gives exactly the 44-byte
   * header for a 24 kHz stream of that length followed by `pcm`.
   */
  lemma SynthesisOutcomeCases(reply: AudioReply)
    ensures reply.AudioReplied? && !Present(reply.data) ==> SynthesisOutcome(reply) == Failure(NoAudio)
    ensures reply.AudioThrew? ==> SynthesisOutcome(reply) == Failure(Remote(reply.message))
    ensures SynthesisOutcome(reply).Success? <==>
      reply.AudioReplied? && Present(reply.data) && Base64.Decode(reply.data.value).Some?
    ensures SynthesisOutcome(reply).Success? ==>
      var pcm := Base64.Decode(reply.data.value).value;
      && |SynthesisOutcome(reply).value| == Wav.HeaderSize + |pcm|
      && SynthesisOutcome(reply).value[Wav.HeaderSize..] == pcm
      && Wav.ParseWavHeader(SynthesisOutcome(reply).value).Some?
      && Wav.ParseWavHeader(SynthesisOutcome(reply).value).value.sampleRate == SampleRate
  {
    if reply.AudioReplied? && Present(reply.data) && Base64.Decode(reply.data.value).Some? {
      Wav.WavLayout(Base64.Decode(reply.data.value).value, SampleRate);
    }
  }

  /**
   * The calls `generateSpeech` issues: an analysis exactly when a sample is
   * present (whatever the voice), then one synthesis with the effective voice
   * and a prompt that ends with the quoted text.
   */
  lemma SpeechCalls(text: string, voiceType: VoiceType, emotion: string, accent: AccentRegion,
                    contentType: Option<ContentType>, sample: Option<string>, sampleMimeType: Option<string>,
                    analysisReply: TextReply, synthesisReply: AudioReply)
    ensures var calls := Speech(text, voiceType, emotion, accent, contentType, sample, sampleMimeType,
                                analysisReply, synthesisReply).calls;
      && |calls| == (if Present(sample) then 2 else 1)
      && (Present(sample) ==> calls[0].VoiceAnalysis? && calls[0].parts[0].data == sample.value)
      && var last := calls[|calls| - 1];
      && last.SpeechSynthesis?
      && last.voiceName == VoiceValue(EffectiveVoice(voiceType))
      && (voiceType == Cloned ==> last.voiceName == "charon")
      && |TextBlock(text)| <= |last.prompt|
      && last.prompt[|last.prompt| - |TextBlock(text)|..] == TextBlock(text)
  {
    var profile := VoiceProfile(sample, analysisReply);
    var prompt := SpeechPromptFor(text, voiceType, emotion, accent, contentType, profile);
    SpeechPromptLayout(text, emotion, StyleText(contentType), accent, VocalCharacter(voiceType),
                       InstructionText(ChooseCloningInstruction(voiceType, profile)));
    var analysisCalls := AnalysisCalls(sample, sampleMimeType);
    var calls := Speech(text, voiceType, emotion, accent, contentType, sample, sampleMimeType,
                        analysisReply, synthesisReply).calls;
    var synthesis := SpeechSynthesis(prompt, VoiceValue(EffectiveVoice(voiceType)));
    assert calls == analysisCalls + [synthesis];
    assert calls[|calls| - 1] == synthesis;
  }

  /**
   * A failed analysis does not abort: the synthesis call is still issued,
   * with the generic reference instruction, and the outcome is what it would
   * be with any other analysis reply.
   */
  lemma AnalysisFailureIsSwallowed(text: string, voiceType: VoiceType, emotion: string, accent: AccentRegion,
                                   contentType: Option<ContentType>, sample: Option<string>,
                                   sampleMimeType: Option<string>, message: string, other: TextReply,
                                   synthesisReply: AudioReply)
    ensures var run := Speech(text, voiceType, emotion, accent, contentType, sample, sampleMimeType,
                              TextThrew(message), synthesisReply);
      && run.outcome == Speech(text, voiceType, emotion, accent, contentType, sample, sampleMimeType,
                               other, synthesisReply).outcome
      && run.calls[|run.calls| - 1].SpeechSynthesis?
      && run.calls[|run.calls| - 1].prompt
         == SpeechPrompt(text, emotion, StyleText(contentType), accent, VocalCharacter(voiceType), ReferenceInstruction)
  {
  }

  /**
   * For the cloned voice with a sample whose analysis reports a non-empty
   * description, the synthesis prompt carries that description in the clone
   * instruction and the provider voice is Charon.
   */
  lemma ClonedVoiceUsesAnalysis(text: string, emotion: string, accent: AccentRegion,
                                contentType: Option<ContentType>, sample: Option<string>,
                                sampleMimeType: Option<string>, description: string, synthesisReply: AudioReply)
    requires Present(sample) && description != ""
    ensures var calls := Speech(text, Cloned, emotion, accent, contentType, sample, sampleMimeType,
                                TextReplied(Some(description)), synthesisReply).calls;
      && |calls| == 2 && calls[1].SpeechSynthesis? && calls[1].voiceName == "charon"
      && Contains(calls[1].prompt, description)
      && ContainsInOrder(calls[1].prompt, CloneModePrefix + description + CloneModeSuffix, TextBlock(text))
  {
    var profile := VoiceProfile(sample, TextReplied(Some(description)));
    assert profile == description;
    var cloning := ChooseCloningInstruction(Cloned, profile);
    var instruction := InstructionText(cloning);
    var style, character := StyleText(contentType), VocalCharacter(Cloned);
    var p := SpeechPrompt(text, emotion, style, accent, character, instruction);
    SpeechPromptLayout(text, emotion, style, accent, character, instruction);
    ContainsTransitive(p, instruction, description);
  }

  /** The first step of `generateSpeech`: analyse the sample if there is one; a failed analysis leaves the profile empty. */
  method AnalyzeIfPresent(voiceSampleBase64: Option<string>, voiceSampleMimeType: Option<string>, analysisReply: TextReply)
    returns (voiceProfile: string, calls: seq<Call>)
    ensures voiceProfile == VoiceProfile(voiceSampleBase64, analysisReply)
    ensures calls == AnalysisCalls(voiceSampleBase64, voiceSampleMimeType)
  {
    calls := [];
    voiceProfile := "";
    if Present(voiceSampleBase64) {
      var mimeType := OrDefault(voiceSampleMimeType, DefaultMimeType);
      calls := calls + [VoiceAnalysis(AnalysisParts(voiceSampleBase64.value, mimeType))];
      var analysis := AnalyzeVoiceSample(analysisReply);
      if analysis.Success? {
        voiceProfile := analysis.value;
      }
    }
  }

  /** Picks the persona and the cloning instruction, and assembles the synthesis prompt. */
  method ComposeSpeechPrompt(text: string, voiceType: VoiceType, emotion: string, accent: AccentRegion,
                             contentType: Option<ContentType>, voiceProfile: string) returns (speechPrompt: string)
    ensures speechPrompt == SpeechPromptFor(text, voiceType, emotion, accent, contentType, voiceProfile)
  {
    var vocalCharacter := ChooseVocalCharacter(voiceType);
    var cloningInstruction := InstructionText(ChooseCloningInstruction(voiceType, voiceProfile));
    speechPrompt := SpeechPrompt(text, emotion, StyleText(contentType), accent, vocalCharacter, cloningInstruction);
  }

  /** Frames the synthesis reply: the payload check, `decodeBase64` and `createWavBlob` at 24 kHz. */
  method FrameSynthesisReply(synthesisReply: AudioReply) returns (r: Result<seq<byte>, Error>)
    ensures r == SynthesisOutcome(synthesisReply)
  {
    match synthesisReply {
      case AudioThrew(m) =>
        r := Failure(Remote(m));
      case AudioReplied(base64Audio) =>
        if !Present(base64Audio) {
          r := Failure(NoAudio);
        } else {
          var decoded := Base64.DecodeBase64(base64Audio.value);
          match decoded {
            case None =>
              r := Failure(InvalidBase64);
            case Some(pcmData) =>
              var blob := Wav.CreateWavBlob(pcmData, SampleRate);
              r := Success(blob);
          }
        }
    }
  }

  /**
   * `generateSpeech`: analyses the sample when one is present (a throw is
   * caught), picks the persona, assembles the prompt, issues the synthesis
   * call, and frames the decoded payload at 24 kHz.
   */
  method GenerateSpeech(text: string, voiceType: VoiceType, emotion: string, accent: AccentRegion,
                        contentType: Option<ContentType>, voiceSampleBase64: Option<string>,
                        voiceSampleMimeType: Option<string>, analysisReply: TextReply, synthesisReply: AudioReply)
    returns (r: Result<seq<byte>, Error>, calls: seq<Call>)
    ensures Run(r, calls) == Speech(text, voiceType, emotion, accent, contentType, voiceSampleBase64,
                                    voiceSampleMimeType, analysisReply, synthesisReply)
  {
    var voiceProfile;
    voiceProfile, calls := AnalyzeIfPresent(voiceSampleBase64, voiceSampleMimeType, analysisReply);
    var effectiveVoice := if voiceType == Cloned then Charon else voiceType;
    var speechPrompt := ComposeSpeechPrompt(text, voiceType, emotion, accent, contentType, voiceProfile);
    calls := calls + [SpeechSynthesis(speechPrompt, VoiceValue(effectiveVoice))];
    r := FrameSynthesisReply(synthesisReply);
  }
}
