/**
 * Version 2 ("results"): one fixed classifier, no test-type selection, and a
 * result screen whose symbols are stored as double-encoded text.
 */
module V2ViewController {
  import opened Wrappers
  import opened Capture

  /** The only model file this version loads. */
  const ModelName: string := "antibody_preg1"

  /** The fields `classifyImage` sets on `ResultViewController` (this version has no model type). */
  datatype ResultScreen = ResultScreen(predictedLabel: string, location: Option<Coordinate>, date: Date, image: Image)

  /**
   * `classifyImage`, with model loading and the Vision request passed in as
   * `classify`: the pregnancy model is asked whatever else holds; no CIImage,
   * a classifier error or an empty result shows nothing; otherwise the first
   * observation's label is shown with the capture's location, date and image.
   */
  function ClassifyImage(image: Image, location: Option<Coordinate>, date: Date, classify: string -> ClassifierOutcome)
    : (r: ScreenOutcome<ResultScreen>)
    ensures !r.ErrorAlert?
    ensures r.Presented? <==> image.hasCIImage && TopLabel(classify(ModelName)).Some?
    ensures r.Presented? ==> r.screen.predictedLabel == classify(ModelName).observations[0].identifier
    ensures r.Presented? ==> r.screen.location == location && r.screen.date == date && r.screen.image == image
  {
    if !image.hasCIImage then NothingShown
    else match TopLabel(classify(ModelName))
      case None => NothingShown
      case Some(predictedLabel) => Presented(ResultScreen(predictedLabel, location, date, image))
  }

  /** Only the answer for "antibody_preg1" matters: classifiers that agree there give the same screen. */
  lemma ClassifyImageAsksOnlyPregnancyModel(image: Image, location: Option<Coordinate>, date: Date,
                                            c1: string -> ClassifierOutcome, c2: string -> ClassifierOutcome)
    requires c1(ModelName) == c2(ModelName)
    ensures ClassifyImage(image, location, date, c1) == ClassifyImage(image, location, date, c2)
  {
  }

  // The symbols as the file stores them: the UTF-8 bytes of each emoji read
  // back as text in a single-byte Windows code page.
  const PositiveSymbol: string := "\U{00E2}\U{0153}\U{2026}"
  const NegativeSymbol: string := "\U{00E2}\U{0152}"
  const InvalidSymbol: string := "\U{00E2}\U{201C}"
  const FallbackSymbol: string := "\U{011F}\U{0178}\U{00A4}\U{00B7}\U{00E2}\U{20AC}\U{00E2}\U{2122}\U{20AC}\U{00EF}\U{00B8}"

  /** `getSymbolForClassificationResult`: three exact matches and a default for every other string. */
  function SymbolFor(result: string): (r: string)
    ensures result == "positive" ==> r == PositiveSymbol
    ensures result == "negative" ==> r == NegativeSymbol
    ensures result == "invalid" ==> r == InvalidSymbol
    ensures r == FallbackSymbol <==> result != "positive" && result != "negative" && result != "invalid"
  {
    match result
    case "positive" => PositiveSymbol
    case "negative" => NegativeSymbol
    case "invalid" => InvalidSymbol
    case _ => FallbackSymbol
  }

  /** The four symbols are pairwise distinct, so the map tells every known result and the rest apart. */
  lemma SymbolsDistinct()
    ensures |{PositiveSymbol, NegativeSymbol, InvalidSymbol, FallbackSymbol}| == 4
  {
    assert PositiveSymbol[1] != NegativeSymbol[1];
    assert PositiveSymbol[1] != InvalidSymbol[1];
    assert NegativeSymbol[1] != InvalidSymbol[1];
    assert FallbackSymbol[0] != PositiveSymbol[0];
    assert FallbackSymbol[0] != NegativeSymbol[0];
    assert FallbackSymbol[0] != InvalidSymbol[0];
  }
}
