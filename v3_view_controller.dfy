/**
 * Version 3's capture screen and result screen: the default selection on
 * appearing, the choice of model file, the classification request and the
 * result record, and the model-type display name.
 */
module V3ViewController {
  import opened Wrappers
  import opened Capture
  import opened ResultView
  import opened Notifications
  import opened V3AppDelegate

  /** The selection the capture screen falls back to when none was made. */
  const DefaultModel: ModelType := Covid

  const NoModelMessage: string := "Please select a test type (e.g., COVID or Pregnancy) before scanning."

  /**
   * `viewWillAppear`: with no selection, select the default through
   * `setModel` (which posts once); otherwise leave the selection alone.
   */
  method ViewWillAppear(manager: ModelManager, center: NotificationCenter)
    modifies manager, center
    ensures old(manager.currentModel).None? ==> manager.currentModel == Some(DefaultModel)
    ensures old(manager.currentModel).None? ==> center.posted == old(center.posted) + [ModelChanged]
    ensures old(manager.currentModel).Some? ==> manager.currentModel == old(manager.currentModel)
    ensures old(manager.currentModel).Some? ==> center.posted == old(center.posted)
  {
    if manager.currentModel == None {
      manager.SetModel(DefaultModel, center);
    }
  }

  /**
   * The model-file `switch` of `classifyImage`: one file per model type,
   * nothing when no type is selected.
   */
  function ModelName(current: Option<ModelType>): (r: Option<string>)
    ensures r.None? <==> current.None?
    ensures current == Some(Covid) ==> r == Some("antibody_covid5")
    ensures current == Some(Pregnancy) ==> r == Some("antibody_preg1")
  {
    match current
    case Some(Covid) => Some("antibody_covid5")
    case Some(Pregnancy) => Some("antibody_preg1")
    case None => None
  }

  /** Different selections load different model files. */
  lemma ModelNameInjective(a: ModelType, b: ModelType)
    requires a != b
    ensures ModelName(Some(a)) != ModelName(Some(b))
  {
  }

  /**
   * The request's completion handler: an error or an empty result list shows
   * nothing; otherwise a result screen with the first observation's label,
   * the capture's location, date and image, and the model type read from
   * `ModelManager` when the completion runs.
   */
  function CompleteRequest(outcome: ClassifierOutcome, image: Image, location: Option<Coordinate>, date: Date,
                           modelAtCompletion: Option<ModelType>): (r: ScreenOutcome<ResultScreen<ModelType>>)
    ensures r.Presented? <==> TopLabel(outcome).Some?
    ensures !r.ErrorAlert?
    ensures r.Presented? ==> r.screen.predictedLabel == outcome.observations[0].identifier
    ensures r.Presented? ==> r.screen.location == location && r.screen.date == date && r.screen.image == image
    ensures r.Presented? ==> r.screen.modelType == modelAtCompletion
  {
    match TopLabel(outcome)
    case None => NothingShown
    case Some(predictedLabel) => Presented(ResultScreen(predictedLabel, location, date, image, modelAtCompletion))
  }

  /**
   * `classifyImage`, with the model-loading and Vision request passed in as
   * `classify` (from model-file name to outcome). The selection is read from
   * `ModelManager` before the request and again in the completion; nothing
   * changes it in between here.
   */
  method ClassifyImage(manager: ModelManager, image: Image, location: Option<Coordinate>, date: Date,
                       classify: string -> ClassifierOutcome)
    returns (shown: ScreenOutcome<ResultScreen<ModelType>>)
    ensures shown.ErrorAlert? <==> image.hasCIImage && manager.currentModel.None?
    ensures shown.ErrorAlert? ==> shown.message == NoModelMessage
    ensures shown.Presented? <==>
      image.hasCIImage && manager.currentModel.Some? && TopLabel(classify(ModelName(manager.currentModel).value)).Some?
    ensures shown.Presented? ==>
      shown.screen == ResultScreen(TopLabel(classify(ModelName(manager.currentModel).value)).value,
                                   location, date, image, manager.currentModel)
  {
    if !image.hasCIImage {
      return NothingShown;
    }
    var modelName := ModelName(manager.currentModel);
    if modelName.None? {
      return ErrorAlert(NoModelMessage);
    }
    var outcome := classify(modelName.value);
    shown := CompleteRequest(outcome, image, location, date, manager.currentModel);
  }

  /** `ResultViewController.getModelType`: total, "Unknown" exactly when nothing is selected. */
  function DisplayName(modelType: Option<ModelType>): (r: string)
    ensures r == "Unknown" <==> modelType.None?
    ensures modelType == Some(Covid) ==> r == "Covid"
    ensures modelType == Some(Pregnancy) ==> r == "Pregnancy"
  {
    match modelType
    case Some(Covid) => "Covid"
    case Some(Pregnancy) => "Pregnancy"
    case None => "Unknown"
  }

  /** Different selections are shown under different names. */
  lemma DisplayNameInjective(a: Option<ModelType>, b: Option<ModelType>)
    requires a != b
    ensures DisplayName(a) != DisplayName(b)
  {
  }

  /**
   * After a screen has appeared, classification never ends in the
   * "select a test type" alert: the default closes that path.
   */
  method AppearThenClassify(manager: ModelManager, center: NotificationCenter, image: Image,
                            location: Option<Coordinate>, date: Date, classify: string -> ClassifierOutcome)
    returns (shown: ScreenOutcome<ResultScreen<ModelType>>)
    modifies manager, center
    ensures !shown.ErrorAlert?
    ensures old(manager.currentModel).None? && shown.Presented? ==> shown.screen.modelType == Some(DefaultModel)
  {
    ViewWillAppear(manager, center);
    shown := ClassifyImage(manager, image, location, date, classify);
  }
}
