# Fala-Coração: a Dafny model of the generation pipeline

Fala-Coração is a single-page app that writes a short script in
Angolan Portuguese, or takes the user's own text, and has it spoken by a
speech-synthesis model. The synthesis can imitate a recorded voice sample.
This project models the core of that app and proves properties of it:

- `types.dfy` (module `Types`): the enumerations and their string values.
  Also the `VoiceLabels` table and the request, response and history records.
- `base64.dfy` (module `Base64`): `atob` as strict base 64, as in section 4
  of RFC 4648 (the browser's more lenient parsing is under "Left out"). It
  also holds `decodeBase64`, which copies the
  decoded characters into a `Uint8Array` with a loop.
- `wav.dfy` (module `Wav`): `createWavBlob`. It writes a 44-byte RIFF/WAVE
  header through a `DataView` (a class over a byte `array`) and appends the
  PCM bytes. A header parser states what the header says.
- `gemini.dfy` (module `GeminiService`): `generateText`, `analyzeVoiceSample`
  and `generateSpeech`. This covers which remote calls are issued and with
  what payload:
  - the voice-sample analysis;
  - the effective voice, where the cloned voice falls back to Charon;
  - the vocal character chosen for each voice;
  - the clone/reference instruction and the order of the speech prompt;
  - how the synthesis reply is turned into a WAVE file, or into an error.
- `app.dfy` (module `AppState`): the `App` component as a class. Its fields
  are `isLoading`, `result`, `error` and `history`. It covers:
  - `handleGenerate`: text acquisition, the blank-text check, synthesis, the
    result record, and the history entry capped at ten;
  - delete, and "regenerate" (clearing the result).

Remote `generateContent` calls are not executed by the model. Each call is
replaced by the reply it returned, which the caller passes in as a
`TextReply` or `AudioReply`. Each step that issues remote calls also
returns them as `Call` values: one `Call` for `generateText`, and the list
of calls for `generateSpeech` and for a whole `handleGenerate` run. The
analysis call of `analyzeVoiceSample` is returned by `AnalyzeIfPresent`. So "no remote call is made when the manual text
is empty" and "the analysis runs whenever a sample is present" can be
stated as facts about that list.

Two details of the code, which the model keeps:

- `handleGenerate` checks `textToSpeak.trim()` for blankness, but speaks and
  stores the untrimmed text.
- `generateSpeech` analyses the sample whenever one is present, whatever the
  voice. The analysis is only used in the prompt for the cloned voice.

## Model

| member | source | states |
|---|---|---|
| Types.VoiceTypeIsClosed | types.ts:35-46 | `VoiceType` has exactly the ten listed members |
| Types.VoiceTypeValueRoundTrip | types.ts:35-46 | reading a voice back from its string value gives that voice |
| Types.VoiceTypeValuesDistinct | types.ts:35-46 | distinct voices have distinct string values |
| Types.EmotionIsClosed | types.ts:2-11 | `Emotion` has exactly eight members |
| Types.EmotionValueRoundTrip | types.ts:2-11 | every emotion is recovered from its string value |
| Types.EmotionValuesDistinct | types.ts:2-11 | distinct emotions have distinct string values |
| Types.AccentRegionIsClosed | types.ts:13-19 | `AccentRegion` has exactly five members |
| Types.AccentRegionValueRoundTrip | types.ts:13-19 | every accent is recovered from its string value |
| Types.AccentRegionValuesDistinct | types.ts:13-19 | distinct accents have distinct string values |
| Types.ContentTypeIsClosed | types.ts:21-33 | `ContentType` has exactly eleven members |
| Types.ContentTypeValueRoundTrip | types.ts:21-33 | every content type is recovered from its string value |
| Types.ContentTypeValuesDistinct | types.ts:21-33 | distinct content types have distinct string values |
| Types.EmotionFromValue | types.ts:2-11 | a string maps back only to the emotion whose value it is |
| Types.AccentFromValue | types.ts:13-19 | a string maps back only to the accent whose value it is |
| Types.ContentFromValue | types.ts:21-33 | a string maps back only to the content type whose value it is |
| Types.VoiceFromValue | types.ts:35-46 | a string maps back only to the voice whose value it is |
| Types.VoiceLabelsAreTotal | types.ts:48-59 | the label table has a non-empty entry for every voice, so the label is that entry; the cloned voice is "Voz Personalizada" |
| Types.DurationValuesDistinct | types.ts:61-65 | `DurationValue`, the string value of a `Duration`, differs for distinct durations |
| Types.VoiceLabels | types.ts:48-59 | the table has an entry for exactly the string values of the ten voices, and every entry is non-empty |
| Types.VoiceLabelOf | App.tsx:47 | `VoiceLabels[params.voice] \|\| params.voice` is never empty, and is the table entry whenever there is one |
| Types.PresetLabelNamesVoice | types.ts:48-58 | every preset voice's label ends with the voice's name in parentheses |
| Types.SuffixOf | types.ts:49-57 | a preset label "description (Name)" ends with "(Name)" |
| Bytes.ToUint8 | services/geminiService.ts:16 | an assignment into a `Uint8Array` stores the value modulo 256, and leaves a byte value unchanged |
| Bytes.Ascii | services/geminiService.ts:163-174 | the byte of each ASCII character is its character code, position by position |
| Base64.Decode | services/geminiService.ts:12 | a decoded byte string is three bytes per four characters, less at most two bytes of padding |
| Base64.EncodeSextet | services/geminiService.ts:12 | every 6-bit value maps to an alphabet character that decodes back to it |
| Base64.SextetBijection | services/geminiService.ts:12 | every alphabet character is the encoding of its own value |
| Base64.Group3RoundTrip | services/geminiService.ts:12 | a full 24-bit quantum decodes back to its three bytes |
| Base64.Group2RoundTrip | services/geminiService.ts:12 | a final quantum with one "=" decodes back to its two bytes |
| Base64.Group1RoundTrip | services/geminiService.ts:12 | a final quantum with "==" decodes back to its byte |
| Base64.DecodeEncode | services/geminiService.ts:12 | decoding the padded encoding of any byte string gives that byte string |
| Base64.DecodeRejectsLength | services/geminiService.ts:12 | input whose length is not a multiple of four is rejected |
| Base64.DecodeRejectsForeignChar | services/geminiService.ts:12 | input with a character outside the alphabet and "=" is rejected |
| Base64.Atob | services/geminiService.ts:12 | `atob` succeeds exactly when the input is valid base 64; the result's characters are the decoded bytes, in order |
| Base64.DecodeBase64 | services/geminiService.ts:11-19 | the array holds exactly the decoded bytes, one per character of `atob`'s result; invalid input fails |
| Base64.DecodeBase64OfEncoding | services/geminiService.ts:11-19 | decoding the encoding of any byte string gives back an array with exactly those bytes |
| Wav.Uint16Bytes | services/geminiService.ts:168-169 | a 16-bit write is two bytes that read back as the value modulo 2^16, in the chosen byte order |
| Wav.Uint32Bytes | services/geminiService.ts:163-167 | a 32-bit write is four bytes that read back as the value modulo 2^32, in the chosen byte order |
| Wav.DataView.constructor | services/geminiService.ts:162 | the view is over the given buffer |
| Wav.DataView.SetUint16 | services/geminiService.ts:168-169 | `setUint16` replaces exactly the two bytes at the offset and leaves the rest of the buffer unchanged |
| Wav.DataView.SetUint32 | services/geminiService.ts:163-175 | `setUint32` replaces exactly the four bytes at the offset and leaves the rest of the buffer unchanged |
| Wav.WriteRiffDescriptor | services/geminiService.ts:163-165 | the first twelve header bytes become "RIFF", 36 + length, "WAVE"; the bytes after them are kept |
| Wav.WriteFormatChunk | services/geminiService.ts:166-173 | bytes 12-36 become the format sub-chunk; the RIFF descriptor and the bytes after the sub-chunk are kept |
| Wav.WriteFormatPreamble | services/geminiService.ts:166-169 | bytes 12-24 become "fmt ", 16, PCM, mono; the bytes before and after them are kept |
| Wav.WriteFormatRates | services/geminiService.ts:170-173 | bytes 24-36 become the sample rate, the byte rate (2 × rate), block align 2 and 16 bits; the bytes before and after them are kept |
| Wav.WriteDataChunkHeader | services/geminiService.ts:174-175 | the last eight header bytes become "data" and the payload length; earlier bytes are kept |
| Wav.CreateWavBlob | services/geminiService.ts:160-177 | the blob is the 44-byte header for that length and rate, followed by the PCM bytes |
| Wav.FourCharacterCodes | services/geminiService.ts:163-174 | the big-endian constants are the ASCII codes "RIFF", "WAVE", "fmt " and "data" |
| Wav.RiffFields | services/geminiService.ts:163-165 | the RIFF descriptor's three fields sit at offsets 0, 4 and 8 |
| Wav.FormatFields | services/geminiService.ts:166-173 | the eight format fields, and their values, sit at their offsets inside the sub-chunk |
| Wav.DataFields | services/geminiService.ts:174-175 | the data sub-chunk header is "data" followed by the length |
| Wav.HeaderFields | services/geminiService.ts:161-175 | the header is 44 bytes and each of its 13 fields sits at the offset the code writes it to |
| Wav.WavLayout | services/geminiService.ts:160-177 | a parser reading the blob finds every tag and every field (values modulo 2^32) and, after byte 44, exactly the PCM data |
| Wav.WavFieldsExact | services/geminiService.ts:160-177 | when the sizes and rates fit in 32 bits, the parsed fields are exactly 36 + length, 16, 1, 1, rate, 2 × rate, 2, 16 and length |
| GeminiService.Message | services/geminiService.ts:155 | the `message` of an error: a remote failure keeps the remote message, and each of the model's own errors has a non-empty message |
| GeminiService.OrDefault | services/geminiService.ts:50 | the default operator on an optional string gives the string when it is present and non-empty, and the default otherwise |
| GeminiService.TextPromptPartsShape | services/geminiService.ts:45-67 | the text request holds the sample part exactly when a sample is present, first, and always ends with the instruction |
| GeminiService.TextPromptMentionsRequest | services/geminiService.ts:55-67 | the instruction `TextPrompt` names the accent before the emotion, and the theme before the audience |
| GeminiService.GeneratedText | services/geminiService.ts:77 | an empty or undefined reply text becomes ""; a throw propagates |
| GeminiService.GenerateText | services/geminiService.ts:42-78 | one text call with those parts; it returns the reply's text, "" for an undefined reply, or the failure |
| GeminiService.AnalyzeVoiceSample | services/geminiService.ts:21-40 | the analysis returns the reply's text, or "voz angolana autêntica" for an empty or undefined reply; a throw propagates |
| GeminiService.VoiceProfileEmptyIff | services/geminiService.ts:91-98 | the voice profile is empty exactly when there is no sample or its analysis threw |
| GeminiService.EffectiveVoice | services/geminiService.ts:100 | the cloned voice is sent as Charon; every other voice is sent as itself |
| GeminiService.CategoryOf | services/geminiService.ts:103-113 | only the cloned voice falls through to the default "Locutor Angolano" |
| GeminiService.ChooseVocalCharacter | services/geminiService.ts:103-113 | the if/else chain yields the character description of the voice's category |
| GeminiService.CharacterDescriptionsDistinct | services/geminiService.ts:106-112 | the four character descriptions are pairwise different |
| GeminiService.VocalCharacterGroups | services/geminiService.ts:103-113 | youthful male iff Puck or Orus; deep male iff Charon, Fenrir or Enceladus; female iff Zephyr, Aoede, Leda or Kore; the default iff cloned |
| GeminiService.ChooseCloningInstruction | services/geminiService.ts:124-126 | the clone instruction is used iff the voice is cloned and the profile is non-empty, and it then contains the profile |
| GeminiService.SpeechPromptLayout | services/geminiService.ts:115-139 | the prompt `SpeechPrompt` ends with the quoted text, contains the cloning instruction before it, and mentions the accent, the vocal character, the emotion and the style |
| GeminiService.SynthesisOutcomeCases | services/geminiService.ts:154-157 | a throw propagates; missing or empty audio fails with "Erro na síntese."; decodable audio gives a 24 kHz WAVE with the PCM after byte 44 |
| GeminiService.SpeechCalls | services/geminiService.ts:91-152 | the analysis call is issued iff a sample is present, then one synthesis call with the effective voice (Charon for the cloned voice) and a prompt ending in the quoted text |
| GeminiService.AnalysisFailureIsSwallowed | services/geminiService.ts:93-97 | a failed analysis does not abort: the synthesis still happens, with the reference instruction, and for the same synthesis reply the outcome is the one any other analysis reply gives |
| GeminiService.ClonedVoiceUsesAnalysis | services/geminiService.ts:124-125 | for the cloned voice and a non-empty analysis, the synthesis uses Charon and the prompt carries that description in the clone instruction, before the text |
| GeminiService.AnalyzeIfPresent | services/geminiService.ts:91-98 | computes the profile and issues the analysis call (default MIME type "audio/mpeg") only when there is a sample |
| GeminiService.ComposeSpeechPrompt | services/geminiService.ts:100-139 | the assembled prompt is the speech prompt for the request and profile |
| GeminiService.FrameSynthesisReply | services/geminiService.ts:154-157 | the reply becomes the synthesis outcome |
| GeminiService.GenerateSpeech | services/geminiService.ts:80-158 | the result and the calls are those of the speech specification (see the lemmas above) |
| AppState.Trim | App.tsx:33 | `trim()` gives a piece of the string, found at an offset with only whitespace before and after it, that neither starts nor ends with whitespace |
| AppState.TrimStartSpec | App.tsx:33 | trimming the start drops only leading whitespace and keeps a suffix that does not start with whitespace |
| AppState.TrimEndSpec | App.tsx:33 | trimming the end drops only trailing whitespace and keeps a prefix that does not end with whitespace |
| AppState.BlankIffAllWhitespace | App.tsx:33 | `!s.trim()` (the predicate `IsBlank`) holds iff every character is whitespace |
| AppState.PushHistory | App.tsx:66 | the new item comes first, then the older entries in order, with at most ten in all |
| AppState.PushHistoryTwice | App.tsx:66 | two generations give the two newest items, newest first, ahead of the history, capped at ten |
| AppState.NewItem | App.tsx:58-65 | the history entry records the spoken text, voice, emotion and content type |
| AppState.DeleteById | App.tsx:90 | after delete no entry has the id, and the rest is a subsequence of the history |
| AppState.DeleteKeepsOthers | App.tsx:90 | every entry with another id keeps its number of occurrences |
| AppState.DeleteDistributes | App.tsx:90 | deleting from a concatenation deletes from each part |
| AppState.DeleteAbsentId | App.tsx:90 | deleting an absent id changes nothing |
| AppState.DeleteIdempotent | App.tsx:90 | deleting twice is deleting once |
| AppState.DeleteUndoesPush | App.tsx:90 | deleting a fresh entry whose id no older entry carries gives back the history it was pushed onto (line 66), less what the cap of ten dropped |
| AppState.TextToSpeak | App.tsx:32-33 | the text that goes on to synthesis is never blank |
| AppState.SpokenTextBySource | App.tsx:32-56 | a success speaks the generated text in AI mode, and the manual text (or "") in manual mode; it is never blank, and the audio is the synthesis outcome |
| AppState.BlankTextIsNeverSpoken | App.tsx:32-33 | blank text fails with "Texto vazio." before any analysis or synthesis call; in manual mode no call is made at all |
| AppState.EmptyManualTextMakesNoCall | App.tsx:32-33 | manual mode with empty or absent text fails with "Texto vazio." and makes no remote call |
| AppState.SuccessfulRunShape | App.tsx:32-45 | a success issues the text call (AI mode), the optional analysis and one synthesis call, in that order, and yields a WAVE of the decoded audio |
| AppState.OutcomeIgnoresAnalysis | App.tsx:35-43 | for a fixed synthesis reply, the run's outcome is the same whatever the analysis reply (a failing analysis never aborts the run); for preset voices the calls do not depend on it either |
| AppState.AcquireTextToSpeak | App.tsx:32 | AI mode calls `generateText`; manual mode takes the manual text or "" and makes no call |
| AppState.RunGeneration | App.tsx:31-45 | the outcome and calls are those of the generation specification |
| AppState.ErrorText | App.tsx:69-70 | the error shown is the message, or "Erro ao calibrar sotaque." when that is empty; it is never empty |
| AppState.ResponseFor | App.tsx:47-56 | the result holds the spoken text, the URL and the blob; its voice label is the table entry for the voice, and the style label is the content type |
| AppState.App.constructor | App.tsx:12-15 | the initial state: not loading, no result, no error, empty history |
| AppState.App.BeginGenerate | App.tsx:27-29 | loading starts, and the error and result are cleared; the history is kept |
| AppState.App.ShowOutcome | App.tsx:50-70 | a success sets the result and prepends the entry; a failure sets the error and keeps the result and history |
| AppState.App.HandleGenerate | App.tsx:26-74 | ends not loading; a success yields the result, no error and the capped history; a failure yields the error text, no result and the same history; the calls are those of the specification |
| AppState.App.DeleteHistoryItem | App.tsx:90 | the history becomes the filtered history; nothing else changes |
| AppState.App.Regenerate | App.tsx:89 | the result is cleared; nothing else changes |

## Left out

- The Gemini SDK calls themselves, the model names, the temperature and the response modality. Each call is a `Call` value plus the reply supplied to the model.
- The exact wording of the prompts is abridged. Kept:
  - every interpolated value, with its label: accent, emotion, theme, audience, vocal character, style, cloning instruction and text;
  - the first words of each vocal-character description;
  - the order of the prompt's parts.

  Shortened: the fixed prose around them, namely the analysis instruction, the heading of the script prompt, the reference instruction, the frame of the clone instruction, the mission sentence, and the CADÊNCIA and IDENTIDADE directives (kept as label and value, without their second sentences). Each is a short placeholder.

  Dropped: the heading of the phonetic directives, the fixed directives 1, 2 and 5, and the closing instruction of the script prompt (flowing sentences, with pauses at commas and ellipses).
- The whitespace and indentation of the template literals.
- Base64.Atob, Base64.DecodeRejectsLength, Base64.DecodeRejectsForeignChar, Base64.DecodeBase64: `atob` is modelled as strict RFC 4648 decoding. The forgiving-base64 extras of the HTML standard are not modelled: stripped ASCII whitespace, and optional padding. So input such as "YQ" or " YQ==", which the browser decodes to "a", is rejected here. On every input the model accepts, the bytes are the ones the browser gives.
- The error `atob` throws is represented by the name "InvalidCharacterError". The browser's message text is host-specific.
- `Blob`, `URL.createObjectURL`, `localStorage` (loading and saving the history), `console.warn`, `setTimeout`/scrolling, and the React components and rendering.
- `Blob` is represented by its bytes, and the object URL by an opaque string parameter.
- `Math.random().toString(36)` and `Date.now()` are parameters of `HandleGenerate`.
- Asynchrony is not modelled, and neither are overlapping `handleGenerate` runs: each run is one atomic step.
- The `duration` field of the request is carried but, as in the code, never read.
- `Wav.CreateWavBlob` takes any integer sample rate. A fractional sample rate, which `setUint32` would truncate, is not modelled; the app always passes 24000.
- `String.prototype.trim` is modelled over the ECMAScript whitespace and line-terminator characters, on a string of code points rather than UTF-16 units.
- The form's validation and the history list's "load" action (a no-op in `App.tsx`) are not part of this model.
