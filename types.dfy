/**
 * The closed enumerations, the voice label table and the records of the
 * application's type declarations. Each TypeScript string enum becomes a
 * datatype with a function giving the string value of each member.
 */
module Types {
  import opened Wrappers
  import opened Bytes

  datatype Emotion =
    | Emotional | Motivational | Confident | Romantic
    | Inspirational | LightCrying | Joy | Sadness

  /** The string value of an `Emotion` member. */
  function EmotionValue(e: Emotion): string {
    match e
    case Emotional => "Emotional"
    case Motivational => "Motivational"
    case Confident => "Confident"
    case Romantic => "Romantic"
    case Inspirational => "Inspirational"
    case LightCrying => "Light Crying"
    case Joy => "Joy"
    case Sadness => "Sadness"
  }

  /** The member whose string value is `s`, if any (the inverse of `EmotionValue`). */
  function EmotionFromValue(s: string): (r: Option<Emotion>)
    ensures r.Some? ==> EmotionValue(r.value) == s
  {
    if s == "Emotional" then Some(Emotional)
    else if s == "Motivational" then Some(Motivational)
    else if s == "Confident" then Some(Confident)
    else if s == "Romantic" then Some(Romantic)
    else if s == "Inspirational" then Some(Inspirational)
    else if s == "Light Crying" then Some(LightCrying)
    else if s == "Joy" then Some(Joy)
    else if s == "Sadness" then Some(Sadness)
    else None
  }

  datatype AccentRegion = Geral | Luanda | Benguela | Huambo | Cabinda

  /** The string value of an `AccentRegion` member: the label with its cadence descriptor. */
  function AccentValue(a: AccentRegion): string {
    match a
    case Geral => "Geral (Angola)"
    case Luanda => "Luanda (Mais Urbano)"
    case Benguela => "Benguela (Mais Melódico)"
    case Huambo => "Planalto Central (Mais Pausado)"
    case Cabinda => "Norte (Vibração Cabinda)"
  }

  function AccentFromValue(s: string): (r: Option<AccentRegion>)
    ensures r.Some? ==> AccentValue(r.value) == s
  {
    if s == "Geral (Angola)" then Some(Geral)
    else if s == "Luanda (Mais Urbano)" then Some(Luanda)
    else if s == "Benguela (Mais Melódico)" then Some(Benguela)
    else if s == "Planalto Central (Mais Pausado)" then Some(Huambo)
    else if s == "Norte (Vibração Cabinda)" then Some(Cabinda)
    else None
  }

  datatype ContentType =
    | Narration | SocialMedia | Marketing | RomanticMessage | Thanks | Courage
    | Apology | Birthday | Condolences | Professional | Other

  function ContentValue(c: ContentType): string {
    match c
    case Narration => "Narrações"
    case SocialMedia => "Redes Sociais"
    case Marketing => "Marketing e Vendas"
    case RomanticMessage => "Mensagem Romântica"
    case Thanks => "Mensagem de Agradecimento"
    case Courage => "Mensagem de Courage"
    case Apology => "Pedido de Desculpas"
    case Birthday => "Mensagem de Aniversário"
    case Condolences => "Condolências"
    case Professional => "Aviso Profissional"
    case Other => "Outros"
  }

  function ContentFromValue(s: string): (r: Option<ContentType>)
    ensures r.Some? ==> ContentValue(r.value) == s
  {
    if s == "Narrações" then Some(Narration)
    else if s == "Redes Sociais" then Some(SocialMedia)
    else if s == "Marketing e Vendas" then Some(Marketing)
    else if s == "Mensagem Romântica" then Some(RomanticMessage)
    else if s == "Mensagem de Agradecimento" then Some(Thanks)
    else if s == "Mensagem de Courage" then Some(Courage)
    else if s == "Pedido de Desculpas" then Some(Apology)
    else if s == "Mensagem de Aniversário" then Some(Birthday)
    else if s == "Condolências" then Some(Condolences)
    else if s == "Aviso Profissional" then Some(Professional)
    else if s == "Outros" then Some(Other)
    else None
  }

  datatype VoiceType =
    | Charon | Fenrir | Orus | Enceladus | Zephyr | Aoede | Leda | Kore | Puck | Cloned

  /** The string value of a `VoiceType` member, which is also the synthesis voice name sent to the provider. */
  function VoiceValue(v: VoiceType): string {
    match v
    case Charon => "charon"
    case Fenrir => "fenrir"
    case Orus => "orus"
    case Enceladus => "enceladus"
    case Zephyr => "zephyr"
    case Aoede => "aoede"
    case Leda => "leda"
    case Kore => "kore"
    case Puck => "puck"
    case Cloned => "cloned"
  }

  function VoiceFromValue(s: string): (r: Option<VoiceType>)
    ensures r.Some? ==> VoiceValue(r.value) == s
  {
    if s == "charon" then Some(Charon)
    else if s == "fenrir" then Some(Fenrir)
    else if s == "orus" then Some(Orus)
    else if s == "enceladus" then Some(Enceladus)
    else if s == "zephyr" then Some(Zephyr)
    else if s == "aoede" then Some(Aoede)
    else if s == "leda" then Some(Leda)
    else if s == "kore" then Some(Kore)
    else if s == "puck" then Some(Puck)
    else if s == "cloned" then Some(Cloned)
    else None
  }

  /** The member name of a `VoiceType` as written in the enum declaration. */
  function VoiceName(v: VoiceType): string {
    match v
    case Charon => "Charon"
    case Fenrir => "Fenrir"
    case Orus => "Orus"
    case Enceladus => "Enceladus"
    case Zephyr => "Zephyr"
    case Aoede => "Aoede"
    case Leda => "Leda"
    case Kore => "Kore"
    case Puck => "Puck"
    case Cloned => "Cloned"
  }

  datatype Duration = Short | Medium | Long

  /** The string value of a `Duration` member; the request carries it but nothing reads it. */
  function DurationValue(d: Duration): string {
    match d
    case Short => "Curta"
    case Medium => "Média"
    case Long => "Longa"
  }

  datatype GenerationMode = AI | Manual

  const AllEmotions: set<Emotion> :=
    {Emotional, Motivational, Confident, Romantic, Inspirational, LightCrying, Joy, Sadness}
  const AllAccents: set<AccentRegion> := {Geral, Luanda, Benguela, Huambo, Cabinda}
  const AllContentTypes: set<ContentType> :=
    {Narration, SocialMedia, Marketing, RomanticMessage, Thanks, Courage,
     Apology, Birthday, Condolences, Professional, Other}
  const AllVoices: set<VoiceType> :=
    {Charon, Fenrir, Orus, Enceladus, Zephyr, Aoede, Leda, Kore, Puck, Cloned}

  /**
   * The label table, a `Record<string, string>` keyed by the voice's string
   * value: the entry for `key`, or `None` when the record has none.
   */
  function VoiceLabels(key: string): (r: Option<string>)
    ensures r.Some? <==> VoiceFromValue(key).Some?
    ensures r.Some? ==> r.value != ""
  {
    if key == "charon" then Some(Labelled("Masculina Madura", "Charon"))
    else if key == "fenrir" then Some(Labelled("Masculina Profunda", "Fenrir"))
    else if key == "enceladus" then Some(Labelled("Masculina Robusta", "Enceladus"))
    else if key == "puck" then Some(Labelled("Masculina Juvenil", "Puck"))
    else if key == "orus" then Some(Labelled("Masculina Jovem", "Orus"))
    else if key == "zephyr" then Some(Labelled("Feminina Suave", "Zephyr"))
    else if key == "aoede" then Some(Labelled("Feminina Expressiva", "Aoede"))
    else if key == "leda" then Some(Labelled("Feminina Clara", "Leda"))
    else if key == "kore" then Some(Labelled("Feminina Elegante", "Kore"))
    else if key == "cloned" then Some("Voz Personalizada")
    else None
  }

  /** A preset label: a description of the voice followed by its name in parentheses. */
  function Labelled(description: string, name: string): (l: string)
    ensures l != ""
  {
    description + " (" + name + ")"
  }

  /** The label shown for a voice: its table entry, or the raw voice value when the entry is missing or empty. */
  function VoiceLabelOf(v: VoiceType): (shown: string)
    ensures shown != ""
    ensures VoiceLabels(VoiceValue(v)).Some? ==> shown == VoiceLabels(VoiceValue(v)).value
  {
    var key := VoiceValue(v);
    match VoiceLabels(key)
    case Some(l) => if l != "" then l else key
    case None => key
  }

  /** `s` ends with `name` in parentheses. */
  predicate HasParenthesisedSuffix(s: string, name: string) {
    var tail := "(" + name + ")";
    |tail| <= |s| && s[|s| - |tail|..] == tail
  }

  /** A generation request as the form submits it. */
  datatype GenerationRequest = GenerationRequest(
    mode: GenerationMode,
    manualText: Option<string>,
    contentType: ContentType,
    emotion: Emotion,
    voice: VoiceType,
    accent: AccentRegion,
    theme: string,
    targetAudience: string,
    duration: Duration,
    voiceSampleBase64: Option<string>,
    voiceSampleMimeType: Option<string>)

  /**
   * The result shown to the user. The object URL is an opaque host handle;
   * the blob is represented by its bytes.
   */
  datatype GenerationResponse = GenerationResponse(
    text: string,
    audioUrl: Option<string>,
    audioBlob: Option<seq<byte>>,
    voiceLabel: string,
    styleLabel: string)

  /** A history entry: it records the request and text but no audio. */
  datatype HistoryItem = HistoryItem(
    id: string,
    timestamp: int,
    text: string,
    voice: VoiceType,
    emotion: Emotion,
    contentType: ContentType)

  /** `VoiceType` has exactly 10 members. */
  lemma VoiceTypeIsClosed()
    ensures |AllVoices| == 10
    ensures forall v: VoiceType :: v in AllVoices
  {
    forall v: VoiceType ensures v in AllVoices {
      match v
      case Charon => case Fenrir => case Orus => case Enceladus => case Zephyr =>
      case Aoede => case Leda => case Kore => case Puck => case Cloned =>
    }
  }

  /** Reading back the string value of a `VoiceType` member gives that member. */
  lemma VoiceTypeValueRoundTrip(v: VoiceType)
    ensures VoiceFromValue(VoiceValue(v)) == Some(v)
  {
    match v
    case Charon => case Fenrir => case Orus => case Enceladus => case Zephyr => case Aoede =>
    case Leda => case Kore => case Puck => case Cloned =>
  }

  /** Distinct `VoiceType` members have distinct string values. */
  lemma VoiceTypeValuesDistinct(v: VoiceType, w: VoiceType)
    ensures VoiceValue(v) == VoiceValue(w) ==> v == w
  {
    VoiceTypeValueRoundTrip(v);
    VoiceTypeValueRoundTrip(w);
  }

  /** `Emotion` has exactly 8 members. */
  lemma EmotionIsClosed()
    ensures |AllEmotions| == 8
    ensures forall e: Emotion :: e in AllEmotions
  {
    forall e: Emotion ensures e in AllEmotions {
      match e
      case Emotional => case Motivational => case Confident => case Romantic =>
      case Inspirational => case LightCrying => case Joy => case Sadness =>
    }
  }

  /** Reading back the string value of a `Emotion` member gives that member. */
  lemma EmotionValueRoundTrip(e: Emotion)
    ensures EmotionFromValue(EmotionValue(e)) == Some(e)
  {
    match e
    case Emotional => case Motivational => case Confident => case Romantic =>
    case Inspirational => case LightCrying => case Joy => case Sadness =>
  }

  /** Distinct `Emotion` members have distinct string values. */
  lemma EmotionValuesDistinct(e: Emotion, f: Emotion)
    ensures EmotionValue(e) == EmotionValue(f) ==> e == f
  {
    EmotionValueRoundTrip(e);
    EmotionValueRoundTrip(f);
  }

  /** `AccentRegion` has exactly 5 members. */
  lemma AccentRegionIsClosed()
    ensures |AllAccents| == 5
    ensures forall a: AccentRegion :: a in AllAccents
  {
    forall a: AccentRegion ensures a in AllAccents {
      match a case Geral => case Luanda => case Benguela => case Huambo => case Cabinda =>
    }
  }

  /** Reading back the string value of a `AccentRegion` member gives that member. */
  lemma AccentRegionValueRoundTrip(a: AccentRegion)
    ensures AccentFromValue(AccentValue(a)) == Some(a)
  {
    match a
    case Geral => case Luanda => case Benguela => case Huambo => case Cabinda =>
  }

  /** Distinct `AccentRegion` members have distinct string values. */
  lemma AccentRegionValuesDistinct(a: AccentRegion, b: AccentRegion)
    ensures AccentValue(a) == AccentValue(b) ==> a == b
  {
    AccentRegionValueRoundTrip(a);
    AccentRegionValueRoundTrip(b);
  }

  /** `ContentType` has exactly 11 members. */
  lemma ContentTypeIsClosed()
    ensures |AllContentTypes| == 11
    ensures forall c: ContentType :: c in AllContentTypes
  {
    forall c: ContentType ensures c in AllContentTypes {
      match c
      case Narration => case SocialMedia => case Marketing => case RomanticMessage =>
      case Thanks => case Courage => case Apology => case Birthday =>
      case Condolences => case Professional => case Other =>
    }
  }

  /** Reading back the string value of a `ContentType` member gives that member. */
  lemma ContentTypeValueRoundTrip(c: ContentType)
    ensures ContentFromValue(ContentValue(c)) == Some(c)
  {
    match c
    case Narration => case SocialMedia => case Marketing => case RomanticMessage =>
    case Thanks => case Courage => case Apology => case Birthday => case Condolences =>
    case Professional => case Other =>
  }

  /** Distinct `ContentType` members have distinct string values. */
  lemma ContentTypeValuesDistinct(c: ContentType, d: ContentType)
    ensures ContentValue(c) == ContentValue(d) ==> c == d
  {
    ContentTypeValueRoundTrip(c);
    ContentTypeValueRoundTrip(d);
  }

  /** Distinct `Duration` members have distinct string values. */
  lemma DurationValuesDistinct(d: Duration, e: Duration)
    ensures DurationValue(d) == DurationValue(e) ==> d == e
  {
  }

  /**
   * The label table has a non-empty entry for every voice, so the fallback to
   * the raw value is never taken, and the cloned voice is "Voz Personalizada".
   */
  lemma VoiceLabelsAreTotal(v: VoiceType)
    ensures VoiceLabels(VoiceValue(v)) == Some(VoiceLabelOf(v))
    ensures VoiceLabelOf(v) != ""
    ensures v == Cloned ==> VoiceLabelOf(v) == "Voz Personalizada"
  {
    match v
    case Charon => case Fenrir => case Orus => case Enceladus => case Zephyr =>
    case Aoede => case Leda => case Kore => case Puck => case Cloned =>
  }

  /** Every preset voice's label ends with the voice's name in parentheses. */
  lemma PresetLabelNamesVoice(v: VoiceType)
    requires v != Cloned
    ensures HasParenthesisedSuffix(VoiceLabelOf(v), VoiceName(v))
  {
    VoiceLabelsAreTotal(v);
    match v
    case Charon => SuffixOf("Masculina Madura", "Charon");
    case Fenrir => SuffixOf("Masculina Profunda", "Fenrir");
    case Orus => SuffixOf("Masculina Jovem", "Orus");
    case Enceladus => SuffixOf("Masculina Robusta", "Enceladus");
    case Zephyr => SuffixOf("Feminina Suave", "Zephyr");
    case Aoede => SuffixOf("Feminina Expressiva", "Aoede");
    case Leda => SuffixOf("Feminina Clara", "Leda");
    case Kore => SuffixOf("Feminina Elegante", "Kore");
    case Puck => SuffixOf("Masculina Juvenil", "Puck");
  }

  lemma SuffixOf(description: string, name: string)
    ensures HasParenthesisedSuffix(Labelled(description, name), name)
  {
    var tail := "(" + name + ")";
    assert Labelled(description, name) == (description + " ") + tail;
    assert ((description + " ") + tail)[|description + " "|..] == tail;
  }
}
