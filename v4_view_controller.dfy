/**
 * Version 4's capture screen and result screen: the default selection on
 * appearing, the QR-details label, the placeholder classifier, and the
 * model-type display name.
 */
module V4ViewController {
  import opened Wrappers
  import opened Strings
  import opened Capture
  import opened ResultView
  import opened V4AppDelegate
  import V4SceneDelegate

  /** The selection the capture screen falls back to when none was made. */
  const DefaultModel: ModelType := Influenza

  /** The label the placeholder classifier always reports. */
  const DummyLabel: string := "positive"

  /**
   * The text `updateUIWithQRDetails` puts in the QR label: the first stored
   * segment as the test type and the second as the batch number, or nothing
   * (the label keeps its text) when fewer than two segments are stored.
   */
  function QRDetails(extractedData: seq<string>): (r: Option<string>)
    ensures r.Some? <==> |extractedData| > 1
    ensures r.Some? ==> r.value == "Test type: " + extractedData[0] + " \nBatch#: " + extractedData[1]
  {
    if |extractedData| <= 1 then None
    else Some("Test type: " + extractedData[0] + " \nBatch#: " + extractedData[1])
  }

  /** Segments past the second never reach the QR label. */
  lemma QRDetailsReadsFirstTwo(a: seq<string>, b: seq<string>)
    requires |a| > 1 && |b| > 1 && a[..2] == b[..2]
    ensures QRDetails(a) == QRDetails(b)
  {
    assert a[0] == a[..2][0] && a[1] == a[..2][1];
    assert b[0] == b[..2][0] && b[1] == b[..2][1];
  }

  /** The text `modelChanged` puts in the QR label. */
  function ExtractedDataText(extractedData: seq<string>): (r: string)
    ensures "Extracted Data: " <= r
    ensures |extractedData| == 1 ==> r == "Extracted Data: " + extractedData[0]
  {
    "Extracted Data: " + Join(extractedData, "| ")
  }

  /** The capture screen, reduced to the QR label's text (`nil` until first set). */
  class ViewController {
    var qrDataLabelText: Option<string>

    constructor ()
      ensures qrDataLabelText == None
    {
      qrDataLabelText := None;
    }

    /** `updateUIWithQRDetails`, the "ModelChanged" observer. */
    method UpdateUIWithQRDetails(store: QRCodeDataManager)
      modifies this
      ensures QRDetails(store.extractedData).Some? ==> qrDataLabelText == QRDetails(store.extractedData)
      ensures QRDetails(store.extractedData).None? ==> qrDataLabelText == old(qrDataLabelText)
    {
      var extractedData := store.extractedData;
      if |extractedData| <= 1 {
        return;
      }
      var testType := extractedData[0];
      var batchNumber := extractedData[1];
      qrDataLabelText := Some("Test type: " + testType + " \nBatch#: " + batchNumber);
    }

    /** `modelChanged` (declared, but not registered as an observer). */
    method ModelChanged(store: QRCodeDataManager)
      modifies this
      ensures qrDataLabelText == Some(ExtractedDataText(store.extractedData))
    {
      var data := Join(store.extractedData, "| ");
      qrDataLabelText := Some("Extracted Data: " + data);
    }
  }

  /**
   * `viewWillAppear`: with no selection, select the default; otherwise leave
   * it alone. The stored data is not touched and nothing is posted.
   */
  method ViewWillAppear(store: QRCodeDataManager)
    modifies store`modelType
    ensures old(store.modelType).None? ==> store.modelType == Some(DefaultModel)
    ensures old(store.modelType).Some? ==> store.modelType == old(store.modelType)
  {
    if store.modelType == None {
      store.modelType := Some(DefaultModel);
    }
  }

  /**
   * The placeholder `classifyImage`: no classifier runs; the result screen
   * always reports "positive" with the capture's location, date and image
   * and the selection read from `QRCodeDataManager`.
   */
  method ClassifyImage(store: QRCodeDataManager, image: Image, location: Option<Coordinate>, date: Date)
    returns (screen: ResultScreen<ModelType>)
    ensures screen.predictedLabel == DummyLabel && SymbolFor(screen.predictedLabel) == CheckMark
    ensures screen.location == location && screen.date == date && screen.image == image
    ensures screen.modelType == store.modelType
  {
    var predictedLabel := DummyLabel;
    screen := ResultScreen(predictedLabel, location, date, image, store.modelType);
  }

  /** `ResultViewController.getModelType`: total, "Unknown" exactly when nothing is selected. */
  function DisplayName(modelType: Option<ModelType>): (r: string)
    ensures r == "Unknown" <==> modelType.None?
    ensures modelType == Some(Influenza) ==> r == "Influenza"
    ensures modelType == Some(Pregnancy) ==> r == "Pregnancy"
  {
    match modelType
    case Some(Influenza) => "Influenza"
    case Some(Pregnancy) => "Pregnancy"
    case None => "Unknown"
  }

  /** Different selections are shown under different names. */
  lemma DisplayNameInjective(a: Option<ModelType>, b: Option<ModelType>)
    requires a != b
    ensures DisplayName(a) != DisplayName(b)
  {
  }

  /**
   * After a link accepted by the app delegate, whose stored data begins with
   * the type token, the QR label shows the type and the segment after it.
   */
  lemma QRLabelAfterAppDelegateLink(parts: seq<string>, m: ModelType)
    requires |parts| > 2 && parts[1] == Token(m) && AllSegments(parts, Pipe)
    ensures var selection := V4AppDelegate.ParseLink(Join(parts, [Pipe]));
      selection.Some? && QRDetails(selection.value.extractedData) == Some("Test type: " + Token(m) + " \nBatch#: " + parts[2])
  {
    SplitJoin(parts, Pipe);
  }

  /**
   * After a link accepted by the scene delegate, whose stored data leaves the
   * type token out, the QR label shows the first data segment as the "test
   * type", and a two-segment link leaves the label as it was.
   */
  lemma QRLabelAfterSceneLink(parts: seq<string>, m: ModelType)
    requires |parts| > 1 && parts[0] == Token(m) && AllSegments(parts, Pipe)
    requires forall i :: 0 <= i < |parts| ==> ':' !in parts[i]
    ensures var selection := V4SceneDelegate.ParseLink(
        V4SceneDelegate.StrippedPath(V4SceneDelegate.OpenedURL(Some(V4SceneDelegate.Scheme + Join(parts, [Pipe])))));
      selection.Some? &&
      (|parts| == 2 ==> QRDetails(selection.value.extractedData).None?) &&
      (|parts| > 2 ==> QRDetails(selection.value.extractedData) == Some("Test type: " + parts[1] + " \nBatch#: " + parts[2]))
  {
    V4SceneDelegate.LinkRoundTrip(parts, m);
  }
}
