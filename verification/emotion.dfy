/** The blendshape-to-emotion classifier: ten face-mesh scores read by name, then a
    prioritised threshold cascade. Scores are exact reals. */
module EmotionMapping {

  /** One entry of the face-mesh output: `{categoryName, score}`. */
  datatype Blendshape = Blendshape(categoryName: string, score: real)

  /** The six emotions the classifier can report. */
  datatype Emotion = Excited | Happy | Surprised | Angry | Sad | Calm

  /** The string the source returns for each emotion. */
  function Label(e: Emotion): string {
    match e
    case Excited => "excited"
    case Happy => "happy"
    case Surprised => "surprised"
    case Angry => "angry"
    case Sad => "sad"
    case Calm => "calm"
  }

  /** The labels the doc comment lists. */
  const Labels: set<string> := {"happy", "sad", "surprised", "angry", "excited", "calm"}

  /** Every emotion has its own label, and the labels are exactly the listed six. */
  lemma LabelsExact(e: Emotion, f: Emotion)
    ensures Label(e) in Labels
    ensures Label(e) == Label(f) ==> e == f
    ensures forall l :: l in Labels ==> exists g: Emotion :: Label(g) == l
  {
    assert Label(Happy) == "happy" && Label(Sad) == "sad" && Label(Calm) == "calm";
    assert Label(Excited) == "excited" && Label(Angry) == "angry" && Label(Surprised) == "surprised";
  }

  /** `getBlendshapeScore(blendshapes, name)`: the score of the first entry with that
      name, or 0 when none has it. */
  function GetBlendshapeScore(blendshapes: seq<Blendshape>, name: string): (r: real)
    ensures (forall i :: 0 <= i < |blendshapes| ==> blendshapes[i].categoryName != name) ==> r == 0.0
    ensures forall i :: 0 <= i < |blendshapes| && blendshapes[i].categoryName == name
                        && (forall j :: 0 <= j < i ==> blendshapes[j].categoryName != name)
                        ==> r == blendshapes[i].score
  {
    if blendshapes == [] then 0.0
    else if blendshapes[0].categoryName == name then blendshapes[0].score
    else
      var rest := blendshapes[1..];
      assert forall i :: 1 <= i < |blendshapes| ==> blendshapes[i] == rest[i - 1];
      GetBlendshapeScore(rest, name)
  }

  /** The ten scores the cascade reads. */
  datatype Features = Features(
    smileLeft: real, smileRight: real,
    frownLeft: real, frownRight: real,
    browInnerUp: real,
    eyeWideLeft: real, eyeWideRight: real,
    jawOpen: real,
    browDownLeft: real, browDownRight: real)

  function FeaturesOf(bs: seq<Blendshape>): Features {
    Features(
      GetBlendshapeScore(bs, "mouthSmileLeft"), GetBlendshapeScore(bs, "mouthSmileRight"),
      GetBlendshapeScore(bs, "mouthFrownLeft"), GetBlendshapeScore(bs, "mouthFrownRight"),
      GetBlendshapeScore(bs, "browInnerUp"),
      GetBlendshapeScore(bs, "eyeWideLeft"), GetBlendshapeScore(bs, "eyeWideRight"),
      GetBlendshapeScore(bs, "jawOpen"),
      GetBlendshapeScore(bs, "browDownLeft"), GetBlendshapeScore(bs, "browDownRight"))
  }

  /** The base threshold. */
  const Threshold: real := 0.5

  /** A wide smile with an open jaw. */
  predicate ExcitedFace(f: Features) {
    f.smileLeft + f.smileRight > 1.0 && f.jawOpen > 0.4
  }

  /** Both mouth corners raised. */
  predicate HappyFace(f: Features) {
    f.smileLeft > Threshold && f.smileRight > Threshold
  }

  /** Raised inner brows with at least one wide eye. */
  predicate SurprisedFace(f: Features) {
    f.browInnerUp > Threshold && (f.eyeWideLeft > Threshold || f.eyeWideRight > Threshold)
  }

  /** Both brows pulled down. */
  predicate AngryFace(f: Features) {
    f.browDownLeft > Threshold && f.browDownRight > Threshold
  }

  /** A frown on either side with the inner brows low. */
  predicate SadFace(f: Features) {
    (f.frownLeft > Threshold || f.frownRight > Threshold) && f.browInnerUp < 0.2
  }

  /** The cascade on the extracted scores: the first condition that holds decides. */
  function Classify(f: Features): (e: Emotion)
    ensures e == Excited <==> ExcitedFace(f)
    ensures e == Happy <==> !ExcitedFace(f) && HappyFace(f)
    ensures e == Surprised <==> !ExcitedFace(f) && !HappyFace(f) && SurprisedFace(f)
    ensures e == Angry <==> !ExcitedFace(f) && !HappyFace(f) && !SurprisedFace(f) && AngryFace(f)
    ensures e == Sad <==> !ExcitedFace(f) && !HappyFace(f) && !SurprisedFace(f) && !AngryFace(f) && SadFace(f)
    ensures e == Calm <==> !ExcitedFace(f) && !HappyFace(f) && !SurprisedFace(f) && !AngryFace(f) && !SadFace(f)
  {
    if ExcitedFace(f) then Excited
    else if HappyFace(f) then Happy
    else if SurprisedFace(f) then Surprised
    else if AngryFace(f) then Angry
    else if SadFace(f) then Sad
    else Calm
  }

  /** `detectEmotion(blendshapes)`. */
  function DetectEmotion(blendshapes: seq<Blendshape>): (e: Emotion) {
    Classify(FeaturesOf(blendshapes))
  }

  /** No face data reads as calm: every score is then 0. */
  lemma EmptyIsCalm()
    ensures DetectEmotion([]) == Calm
    ensures Label(DetectEmotion([])) == "calm"
  {
  }

  /** A happy verdict implies a nearly closed jaw: both smiles above 0.5 sum above 1.0,
      so an open jaw would have been read as excited. */
  lemma HappyMeansJawClosed(blendshapes: seq<Blendshape>)
    requires DetectEmotion(blendshapes) == Happy
    ensures GetBlendshapeScore(blendshapes, "jawOpen") <= 0.4
    ensures GetBlendshapeScore(blendshapes, "mouthSmileLeft") + GetBlendshapeScore(blendshapes, "mouthSmileRight") > 1.0
  {
  }

  /** The sad and surprised conditions never hold together: one wants the inner brows
      below 0.2, the other above 0.5. */
  lemma SadAndSurprisedExclusive(f: Features)
    ensures !(SadFace(f) && SurprisedFace(f))
  {
  }

  /** The starter's stub `detectEmotion`: whatever the face, the answer the full
      classifier gives when there is no face data. */
  function StubDetectEmotion(blendshapes: seq<Blendshape>): (e: Emotion)
    ensures Label(e) in Labels
    ensures e == DetectEmotion([])
  {
    Calm
  }

  /** The stub agrees with the full classifier exactly on faces with no strong
      expression. */
  lemma StubAgreesOnNeutralFaces(blendshapes: seq<Blendshape>)
    ensures StubDetectEmotion(blendshapes) == DetectEmotion(blendshapes) <==>
            var f := FeaturesOf(blendshapes);
            !ExcitedFace(f) && !HappyFace(f) && !SurprisedFace(f) && !AngryFace(f) && !SadFace(f)
  {
  }

  /** A concrete face: a broad smile with the jaw dropped is excited, and the same smile
      with the jaw closed is happy. */
  lemma SmileExamples()
    ensures DetectEmotion([Blendshape("mouthSmileLeft", 0.8), Blendshape("mouthSmileRight", 0.7),
                           Blendshape("jawOpen", 0.6)]) == Excited
    ensures DetectEmotion([Blendshape("mouthSmileLeft", 0.8), Blendshape("mouthSmileRight", 0.7),
                           Blendshape("jawOpen", 0.1)]) == Happy
  {
    var open := [Blendshape("mouthSmileLeft", 0.8), Blendshape("mouthSmileRight", 0.7), Blendshape("jawOpen", 0.6)];
    var shut := [Blendshape("mouthSmileLeft", 0.8), Blendshape("mouthSmileRight", 0.7), Blendshape("jawOpen", 0.1)];
    assert GetBlendshapeScore(open, "mouthSmileLeft") == 0.8;
    assert GetBlendshapeScore(open, "mouthSmileRight") == 0.7;
    assert GetBlendshapeScore(open, "jawOpen") == 0.6;
    assert GetBlendshapeScore(shut, "mouthSmileLeft") == 0.8;
    assert GetBlendshapeScore(shut, "mouthSmileRight") == 0.7;
    assert GetBlendshapeScore(shut, "jawOpen") == 0.1;
  }
}
