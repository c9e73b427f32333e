/** The offline behaviour of the face-reactive project's model integration: canned
    responses and visualisation parameters looked up with defaults, the title used when
    the model cannot be asked, the intensity wording and the choice of prompt. The
    remote model is a parameter `ask` that answers a prompt or fails. */
module FallbackTables {
  import opened Wrappers
  import opened Strings

  // ---------------------------------------------------------------------------
  // Canned responses
  // ---------------------------------------------------------------------------

  /** The response kinds and, for each, a sentence per emotion key. */
  const Fallbacks: map<string, map<string, string>> := map[
    "affirmation" := map[
      "happy" := "Your joy is radiant and contagious. Keep spreading that light!",
      "sad" := "It's okay to feel this way. Every cloud eventually parts.",
      "surprised" := "Life is full of wonderful surprises. Embrace the unexpected!",
      "angry" := "Your feelings are valid. Take a deep breath and let it flow.",
      "relaxed" := "You've found your calm center. This peace is yours to keep.",
      "neutral" := "In stillness, there is strength. You are grounded and present."],
    "description" := map[
      "happy" := "Warm golden light dancing in spirals, like sunbeams through morning mist.",
      "sad" := "Gentle blue waves flowing downward, soft and quiet like rain on glass.",
      "surprised" := "Bright bursts of white and pink, expanding outward like fireworks.",
      "angry" := "Deep red flames flickering intensely, powerful and consuming.",
      "relaxed" := "Soft green particles floating lazily, like leaves on a calm pond.",
      "neutral" := "Steady silver particles drifting, balanced and serene."],
    "suggestion" := map[
      "happy" := "Dance to your favorite song!",
      "sad" := "Listen to some calming music or take a gentle walk.",
      "surprised" := "Write down what surprised you - it might be a great story!",
      "angry" := "Try some deep breathing or go for a brisk walk.",
      "relaxed" := "Enjoy this moment - maybe with a warm cup of tea.",
      "neutral" := "This is a good time for mindful observation."]]

  /** The emotion keys every table has. */
  const EmotionKeys: set<string> := {"happy", "sad", "surprised", "angry", "relaxed", "neutral"}

  /** The table for a response kind: the affirmation table for an unknown kind. */
  function FallbackTable(responseType: string): (t: map<string, string>)
    ensures t.Keys == EmotionKeys
    ensures responseType !in Fallbacks ==> t == Fallbacks["affirmation"]
    ensures responseType in Fallbacks ==> t == Fallbacks[responseType]
  {
    if responseType in Fallbacks then Fallbacks[responseType] else Fallbacks["affirmation"]
  }

  /** `getFallbackResponse(emotion, responseType)`. Every stored sentence is non-empty,
      so `||` falls through only for a missing key. */
  function GetFallbackResponse(emotion: string, responseType: string): (r: string)
    ensures r != ""
    ensures r in FallbackTable(responseType).Values
    ensures emotion in EmotionKeys ==> r == FallbackTable(responseType)[emotion]
    ensures emotion !in EmotionKeys ==> r == FallbackTable(responseType)["neutral"]
  {
    var table := FallbackTable(responseType);
    SentencesNonEmpty(responseType);
    if emotion in table then table[emotion] else table["neutral"]
  }

  /** No stored sentence is empty. */
  lemma SentencesNonEmpty(responseType: string)
    ensures forall e :: e in FallbackTable(responseType) ==> FallbackTable(responseType)[e] != ""
  {
  }

  /** An unknown response kind answers as an affirmation. */
  lemma UnknownKindIsAffirmation(emotion: string, responseType: string)
    requires responseType !in {"affirmation", "description", "suggestion"}
    ensures GetFallbackResponse(emotion, responseType) == GetFallbackResponse(emotion, "affirmation")
  {
  }

  /** An emotion without its own entry gets the neutral one; the classifier's "calm" and
      "excited" are such emotions. */
  lemma UnknownEmotionIsNeutral(emotion: string, responseType: string)
    requires emotion !in EmotionKeys
    ensures GetFallbackResponse(emotion, responseType) == GetFallbackResponse("neutral", responseType)
    ensures GetFallbackResponse("calm", responseType) == GetFallbackResponse("neutral", responseType)
    ensures GetFallbackResponse("excited", responseType) == GetFallbackResponse("neutral", responseType)
  {
  }

  // ---------------------------------------------------------------------------
  // Default visualisation parameters
  // ---------------------------------------------------------------------------

  /** A particle-system configuration. */
  datatype VisualParams = VisualParams(
    primaryColor: string,
    secondaryColor: string,
    particleSpeed: real,
    particleSize: real,
    movementPattern: string,
    intensity: real)

  /** The movement patterns the response schema allows. */
  const MovementPatterns: set<string> := {"floating", "spiraling", "exploding", "flowing", "pulsing"}

  /** The limits the response schema declares. */
  predicate WithinSchema(p: VisualParams) {
    && 0.5 <= p.particleSpeed <= 3.0
    && 2.0 <= p.particleSize <= 20.0
    && 0.1 <= p.intensity <= 1.0
    && p.movementPattern in MovementPatterns
  }

  const DefaultParams: map<string, VisualParams> := map[
    "happy" := VisualParams("#FFD700", "#FFA500", 2.0, 8.0, "spiraling", 0.9),
    "sad" := VisualParams("#4169E1", "#6495ED", 0.8, 6.0, "flowing", 0.4),
    "surprised" := VisualParams("#FF69B4", "#FFFFFF", 2.5, 10.0, "exploding", 1.0),
    "angry" := VisualParams("#DC143C", "#8B0000", 2.2, 12.0, "pulsing", 0.95),
    "relaxed" := VisualParams("#90EE90", "#3CB371", 0.6, 7.0, "floating", 0.3),
    "neutral" := VisualParams("#C0C0C0", "#A9A9A9", 1.0, 5.0, "floating", 0.5)]

  /** `getDefaultVisualizationParams(emotion)`: the emotion's entry, else the neutral one;
      every entry keeps to the schema's limits. */
  function GetDefaultVisualizationParams(emotion: string): (p: VisualParams)
    ensures WithinSchema(p)
    ensures emotion in EmotionKeys ==> p == DefaultParams[emotion]
    ensures emotion !in EmotionKeys ==> p == DefaultParams["neutral"]
  {
    assert DefaultParams.Keys == EmotionKeys;
    assert forall e :: e in DefaultParams ==> WithinSchema(DefaultParams[e]);
    if emotion in DefaultParams then DefaultParams[emotion] else DefaultParams["neutral"]
  }

  // ---------------------------------------------------------------------------
  // Titles and prompts
  // ---------------------------------------------------------------------------

  /** The fixed ending of a fallback title. */
  const MomentSuffix: string := " Moment"

  /** `emotion.charAt(0).toUpperCase() + emotion.slice(1) + " Moment"`, with ASCII case
      mapping. An empty emotion gives " Moment". */
  function TitleFallback(emotion: string): (r: string)
    ensures |r| == |emotion| + |MomentSuffix|
    ensures emotion != [] ==> r[0] == ToUpperChar(emotion[0]) && r[1..|emotion|] == emotion[1..]
    ensures r[|emotion|..] == MomentSuffix
  {
    var head := if emotion == [] then [] else [ToUpperChar(emotion[0])];
    var tail := if emotion == [] then [] else emotion[1..];
    var r := head + tail + MomentSuffix;
    assert r[|head|..|emotion|] == tail;
    r
  }

  /** The title gives the emotion back, by lowering its first letter and dropping the
      suffix, exactly when the emotion does not start with a capital letter. */
  lemma TitleRecoversEmotion(emotion: string)
    requires emotion != []
    ensures var r := TitleFallback(emotion);
            [ToLowerChar(r[0])] + r[1..|emotion|] == emotion <==> !('A' <= emotion[0] <= 'Z')
  {
    var r := TitleFallback(emotion);
    assert emotion == [emotion[0]] + emotion[1..];
    if 'A' <= emotion[0] <= 'Z' {
      assert ToLowerChar(r[0]) != emotion[0];
      assert ([ToLowerChar(r[0])] + r[1..|emotion|])[0] != emotion[0];
    }
  }

  /** "happy" becomes "Happy Moment". */
  lemma TitleExample()
    ensures TitleFallback("happy") == "Happy Moment"
  {
    assert ToUpperChar('h') == 'H';
    assert "happy"[1..] == "appy";
  }

  /** How strongly the feeling is described in the title prompt. */
  datatype IntensityWord = VeryStrong | Moderate | Subtle

  function IntensityText(w: IntensityWord): string {
    match w
    case VeryStrong => "very strong"
    case Moderate => "moderate"
    case Subtle => "subtle"
  }

  /** The intensity wording: both thresholds are strict. */
  function DescribeIntensity(intensity: real): (w: IntensityWord)
    ensures w == VeryStrong <==> intensity > 0.7
    ensures w == Moderate <==> 0.4 < intensity <= 0.7
    ensures w == Subtle <==> intensity <= 0.4
  {
    if intensity > 0.7 then VeryStrong else if intensity > 0.4 then Moderate else Subtle
  }

  function Strength(w: IntensityWord): nat {
    match w
    case Subtle => 0
    case Moderate => 1
    case VeryStrong => 2
  }

  /** A stronger intensity is never described more weakly. */
  lemma DescribeIntensityMonotone(a: real, b: real)
    requires a <= b
    ensures Strength(DescribeIntensity(a)) <= Strength(DescribeIntensity(b))
  {
  }

  /** The three prompt templates of `generateEmotionResponse`. */
  datatype PromptKind = Affirmation | Description | Suggestion

  /** `prompts[responseType] || prompts.affirmation`. */
  function SelectPrompt(responseType: string): (k: PromptKind)
    ensures k == Description <==> responseType == "description"
    ensures k == Suggestion <==> responseType == "suggestion"
    ensures responseType !in {"description", "suggestion"} ==> k == Affirmation
  {
    if responseType == "description" then Description
    else if responseType == "suggestion" then Suggestion
    else Affirmation
  }

  /** The text before and after the emotion in each template. */
  function PromptParts(k: PromptKind): (string, string) {
    match k
    case Affirmation =>
      ("Generate a short, encouraging affirmation (1-2 sentences) for someone who is feeling ",
       ". Be warm and supportive.")
    case Description =>
      ("Describe the emotion \"", "\" in a poetic, visual way (2-3 sentences). Focus on colors, movements, and sensations.")
    case Suggestion =>
      ("Suggest one simple activity (1 sentence) that someone feeling ", " might enjoy.")
  }

  /** The prompt sent for an emotion and a response kind. */
  function EmotionPrompt(emotion: string, responseType: string): (p: string)
    ensures OccursAt(p, emotion, |PromptParts(SelectPrompt(responseType)).0|)
  {
    var parts := PromptParts(SelectPrompt(responseType));
    OccursInConcat(parts.0, emotion, parts.1);
    parts.0 + emotion + parts.1
  }

  /** The prompt names the emotion it is about. */
  lemma PromptMentionsEmotion(emotion: string, responseType: string)
    ensures Contains(EmotionPrompt(emotion, responseType), emotion)
  {
    ContainsAt(EmotionPrompt(emotion, responseType), emotion);
  }

  /** `generateEmotionResponse(emotion, responseType)`. `api` says whether a client could
      be configured; `ask` is the remote call, `None` when it throws. */
  function GenerateEmotionResponse(api: bool, ask: string -> Option<string>, emotion: string, responseType: string): (r: string)
    ensures !api ==> r == GetFallbackResponse(emotion, responseType)
    ensures api && ask(EmotionPrompt(emotion, responseType)).Some? ==> r == ask(EmotionPrompt(emotion, responseType)).value
    ensures api && ask(EmotionPrompt(emotion, responseType)).None? ==> r == GetFallbackResponse(emotion, responseType)
  {
    if !api then GetFallbackResponse(emotion, responseType)
    else
      match ask(EmotionPrompt(emotion, responseType))
      case Some(text) => text
      case None => GetFallbackResponse(emotion, responseType)
  }

  /** The prompt asking for a title. */
  function TitlePrompt(emotion: string, intensity: real): string {
    "Create a short, poetic title (2-5 words) for a " + IntensityText(DescribeIntensity(intensity))
      + " feeling of " + emotion + ". Be creative and evocative."
  }

  /** `generateEmotionTitle(emotion, intensity)`: the model's title, or the fallback title
      when no client is configured or the call throws. */
  function GenerateEmotionTitle(api: bool, ask: string -> Option<string>, emotion: string, intensity: real): (r: string)
    ensures !api || ask(TitlePrompt(emotion, intensity)).None? ==> r == TitleFallback(emotion)
    ensures api && ask(TitlePrompt(emotion, intensity)).Some? ==> r == ask(TitlePrompt(emotion, intensity)).value
  {
    if !api then TitleFallback(emotion)
    else
      match ask(TitlePrompt(emotion, intensity))
      case Some(text) => text
      case None => TitleFallback(emotion)
  }
}
