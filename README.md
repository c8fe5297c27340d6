# Test-strip scanner: deep-link selection and classification workflow

This project models the logic in versions 2, 3 and 4 of a mobile app for scanning diagnostic test strips. The camera, CoreML/Vision, CoreLocation and UIKit parts are not modelled. What is modelled:

- **Deep-link parsers.** A test-type selection arrives as a URL. Each parser splits the URL on `|`, with empty pieces dropped, and matches one segment exactly against the known type tokens.
  - Version 3's app delegate reads the type from the *second* segment and stores only the model type, in the `ModelManager` singleton.
  - Version 4's app delegate also reads the *second* segment. It stores the type and every segment after the first in the `QRCodeDataManager` singleton.
  - Version 4's scene delegate removes every `testtt://` from the decoded URL string and reads the type from the *first* segment. It stores the segments after it and posts one "ModelChanged".
- **Selection stores.** Each singleton is a class whose methods update its fields in place. `NotificationCenter.default` is a class that keeps a log of the names posted. This is what lets the model state facts such as "a rejected link changes nothing and posts nothing" and "version 3 posts twice per accepted link".
- **Capture screen.**
  - The default selection on appearing: covid in version 3, influenza in version 4.
  - The choice of model file, with version 3's "please select a test type" alert.
  - The classifier's first observation.
  - The record handed to the result screen.
  - Version 4's QR-details label.
  - Version 4's placeholder classifier, which always reports "positive".
- **Result screen.**
  - The map from result to symbol. Version 2 stores its symbols as double-encoded text.
  - The model-type display name.
  - The location line built from the name, locality and country of a reverse geocode.

The classifier is a parameter `classify: string -> ClassifierOutcome`, from model-file name to outcome. The reverse geocoder is a parameter `reverseGeocode: Coordinate -> GeocodeOutcome`. Each deep-link parser takes the path, or the decoded URL string, that Foundation would give it.

The model follows the code in these points:
- The handlers return a `Bool` or nothing rather than typed errors.
- Version 3's result record takes its model type from `ModelManager` when the classifier's completion runs. It is not the type the request was made with.
- Both link encodings are modelled as the source has them. Lemmas show where they disagree.

The location line (`getLocationString`) has the same code in all three versions: v2.results/ViewController.swift:200-239, v3.qrnotdumb/ViewController.swift:263-302 and v4.dummy/ViewController.swift:250-289. Versions 3 and 4 also share one symbol map: v3.qrnotdumb/ViewController.swift:310-321 and v4.dummy/ViewController.swift:298-309. Each is modelled once, in `ResultView`, and the table cites the version 3 lines.

A separator is written whenever the text built so far is non-empty. So empty leading fields vanish, but an empty field after a non-empty one still gets a `", "`. `ResultView.JoinedParts` states this exactly.

## Model

| member | source | states |
|---|---|---|
| Strings.Split | v4.dummy/AppDelegate.swift:33 | every segment `split(separator: "\|")` returns is non-empty and contains no `\|`. `SplitWord` and `SplitAtFirst` give its exact result |
| Strings.SplitWord | v4.dummy/AppDelegate.swift:33 | a `\|`-free string is a single segment, or no segment when it is empty |
| Strings.SplitAtFirst | v3.qrnotdumb/AppDelegate.swift:38 | at the first `\|`, the run before it becomes a segment unless it is empty, and splitting goes on after it. So `x\|\|covid` gives `["x", "covid"]`. With `SplitWord` this fixes the result on every input |
| Strings.SplitJoin | v4.dummy/AppDelegate.swift:33 | splitting non-empty, `\|`-free segments joined with `\|` gives back exactly those segments, in order |
| Strings.SplitKeepsEverythingButSeparators | v3.qrnotdumb/AppDelegate.swift:38 | the segments, concatenated, are the input with every `\|` removed: splitting drops separators and empty runs, nothing else |
| Strings.RemoveAll | v4.dummy/SceneDelegate.swift:54 | `replacingOccurrences(of:with: "")` never lengthens the string. `RemoveAllAbsent` and `RemoveAllFirst` give its exact result |
| Strings.RemoveAllAbsent | v4.dummy/SceneDelegate.swift:54 | a string in which the pattern never occurs is unchanged |
| Strings.RemoveAllLeading | v4.dummy/SceneDelegate.swift:54 | a leading occurrence of the pattern is removed |
| Strings.RemoveAllFirst | v4.dummy/SceneDelegate.swift:54 | the first occurrence, wherever it is, is removed, the text before it is kept, and removal goes on after it. With `RemoveAllAbsent` this fixes the result on every input |
| Strings.Join | v4.dummy/ViewController.swift:71 | `joined(separator:)` begins with the first part, unchanged. `SplitJoin` is its inverse for well-formed segments |
| Notifications.NotificationCenter.Post | v3.qrnotdumb/AppDelegate.swift:21 | each post appends exactly one name to the log |
| Capture.TopLabel | v3.qrnotdumb/ViewController.swift:84-95 | a label exists exactly when the request succeeded with at least one observation. It is the first observation's identifier, which has the highest confidence when the results are sorted |
| ResultView.SymbolFor | v3.qrnotdumb/ViewController.swift:310-321 | positive gives ✅, negative ❌, invalid ❓. The shrug appears exactly for strings outside those three |
| ResultView.SymbolForSeparatesKnownLabels | v3.qrnotdumb/ViewController.swift:310-321 | distinct known results get distinct symbols, none of them the fallback |
| ResultView.AppendStep | v3.qrnotdumb/ViewController.swift:282-287 | one "separator if non-empty, then the field" step turns the join of the fields so far (leading empties dropped) into the join with one more field |
| ResultView.AppendPart | v3.qrnotdumb/ViewController.swift:282-294 | the locality and country steps, stated as that join |
| ResultView.AccumulateParts | v3.qrnotdumb/ViewController.swift:276-294 | the `+=` steps produce the present fields in the order name, locality, country, leading empty ones dropped, joined with ", " |
| ResultView.GetLocationString | v3.qrnotdumb/ViewController.swift:263-301 | the completion text equals `LocationText`: Unknown without a location, on a geocode error or with no placemark, otherwise the placemark's line |
| ResultView.LocationUnknownWithoutPlacemark | v3.qrnotdumb/ViewController.swift:264-274 | a missing location, a geocode error or an empty placemark list gives "Location: Unknown" |
| ResultView.LocationAllFields | v3.qrnotdumb/ViewController.swift:276-299 | three non-empty fields give "Location: name, locality, country" |
| ResultView.LocationJoinsPresentFields | v3.qrnotdumb/ViewController.swift:276-300 | if every present field is non-empty, the line is "Location: " plus the present fields joined with ", ". If none is present, or all are empty, it is "Location: Unknown" |
| ResultView.LocationStartsWithFirstNonEmptyField | v3.qrnotdumb/ViewController.swift:278-299 | a line that names a place starts "Location: " followed by the first non-empty field, so no separator comes first |
| V3AppDelegate.ModelFromToken | v3.qrnotdumb/AppDelegate.swift:51-59 | an exact match: only "covid" and "pregnancy" are accepted, each giving the type whose token it is |
| V3AppDelegate.ParseLink | v3.qrnotdumb/AppDelegate.swift:38-59 | accepted exactly when there are at least two segments and `segments[1]` is a type token. The result is that token's type |
| V3AppDelegate.LinkRoundTrip | v3.qrnotdumb/AppDelegate.swift:38-57 | `lead\|<token>\|rest…` parses to the token's type, whatever the other segments hold |
| V3AppDelegate.ModelManager.constructor | v3.qrnotdumb/AppDelegate.swift:14-16 | the selection starts empty |
| V3AppDelegate.ModelManager.SetModel | v3.qrnotdumb/AppDelegate.swift:18-22 | fully replaces the selection and posts one "ModelChanged" |
| V3AppDelegate.OpenURL | v3.qrnotdumb/AppDelegate.swift:31-62 | returns true exactly for a parsable link. Then the selection is the parsed type and two "ModelChanged" are posted. Otherwise the selection and the log are unchanged |
| V3ViewController.ViewWillAppear | v3.qrnotdumb/ViewController.swift:39-47 | no selection becomes covid, through `setModel` (one post). An existing selection is kept and nothing is posted |
| V3ViewController.ModelName | v3.qrnotdumb/ViewController.swift:64-74 | no file exactly when no type is selected. covid uses "antibody_covid5", pregnancy "antibody_preg1" |
| V3ViewController.ModelNameInjective | v3.qrnotdumb/ViewController.swift:65-69 | different types load different model files |
| V3ViewController.CompleteRequest | v3.qrnotdumb/ViewController.swift:83-106 | a result screen exactly when there is a first observation. It shows that label, passes the location, date and image through, and takes the model type current at completion |
| V3ViewController.ClassifyImage | v3.qrnotdumb/ViewController.swift:57-114 | no CIImage shows nothing. No selection shows the select-a-test-type alert and nothing else. Otherwise the selected model's file is classified and the completion's screen is shown |
| V3ViewController.DisplayName | v3.qrnotdumb/ViewController.swift:252-261 | "Unknown" exactly when nothing is selected, otherwise "Covid" or "Pregnancy" |
| V3ViewController.DisplayNameInjective | v3.qrnotdumb/ViewController.swift:252-261 | different selections get different names |
| V3ViewController.AppearThenClassify | v3.qrnotdumb/ViewController.swift:44-73 | after the screen appears, classifying never ends in the no-model alert. With no earlier selection, the result carries covid |
| V4AppDelegate.ModelFromToken | v4.dummy/AppDelegate.swift:48-56 | an exact match: only "influenza" and "pregnancy" are accepted, each giving the type whose token it is |
| V4AppDelegate.QRCodeDataManager.constructor | v4.dummy/AppDelegate.swift:14-18 | the store starts with no data and no type |
| V4AppDelegate.ParseLink | v4.dummy/AppDelegate.swift:33-59 | accepted exactly when there are at least two segments and `segments[1]` is a type token. The stored data is every segment after the first, so it begins with the type token |
| V4AppDelegate.LinkRoundTrip | v4.dummy/AppDelegate.swift:33-59 | `lead\|<token>\|rest…` is accepted with the token's type and data `[token] + rest` |
| V4AppDelegate.OpenURL | v4.dummy/AppDelegate.swift:24-65 | returns true exactly for a parsable link. Then both fields hold the parsed selection. Otherwise neither field changes |
| V4SceneDelegate.ParseLink | v4.dummy/SceneDelegate.swift:57-85 | accepted exactly when there are at least two segments and `segments[0]` is a type token. The stored data is the segments after it |
| V4SceneDelegate.StrippedPath | v4.dummy/SceneDelegate.swift:51-54 | a URL that fails to decode gives "", and removing the scheme never lengthens the text. `StripScheme` gives the exact result for a scheme-prefixed body |
| V4SceneDelegate.FailedDecodeRejected | v4.dummy/SceneDelegate.swift:51-70 | a URL that fails to decode becomes "" and is rejected |
| V4SceneDelegate.StripScheme | v4.dummy/SceneDelegate.swift:51-54 | `testtt://` followed by a body with no ':' strips to exactly that body |
| V4SceneDelegate.LinkRoundTrip | v4.dummy/SceneDelegate.swift:54-85 | `testtt://<token>\|rest…` is accepted with the token's type and data `rest`, without the token |
| V4SceneDelegate.OpenURLContexts | v4.dummy/SceneDelegate.swift:46-96 | an accepted link sets both fields and posts one "ModelChanged". A missing context, a short link or an unknown token changes nothing and posts nothing |
| V4SceneDelegate.HandlersDisagree | v4.dummy/SceneDelegate.swift:73-81 | the path `<token>\|<batch>` is accepted by the scene delegate and rejected by the app delegate, which reads the batch as the type |
| V4ViewController.QRDetails | v4.dummy/ViewController.swift:54-65 | a label text exists exactly when at least two segments are stored. It is "Test type: d[0] \nBatch#: d[1]" |
| V4ViewController.QRDetailsReadsFirstTwo | v4.dummy/ViewController.swift:59-64 | stored segments past the second never reach the label |
| V4ViewController.ExtractedDataText | v4.dummy/ViewController.swift:69-73 | the text starts "Extracted Data: ". With one segment it is that segment |
| V4ViewController.ViewController.constructor | v4.dummy/ViewController.swift:20-26 | the QR label starts without text |
| V4ViewController.ViewController.UpdateUIWithQRDetails | v4.dummy/ViewController.swift:54-65 | sets the label to the QR details when at least two segments are stored. Otherwise the label is unchanged |
| V4ViewController.ViewController.ModelChanged | v4.dummy/ViewController.swift:69-73 | sets the label to "Extracted Data: " plus the segments joined with "\| " |
| V4ViewController.ViewWillAppear | v4.dummy/ViewController.swift:79-86 | no selection becomes influenza, an existing one is kept, and the stored data is untouched |
| V4ViewController.ClassifyImage | v4.dummy/ViewController.swift:95-108 | always "positive" (shown as ✅), with the location, date and image passed through and the current selection |
| V4ViewController.DisplayName | v4.dummy/ViewController.swift:239-248 | "Unknown" exactly when nothing is selected, otherwise "Influenza" or "Pregnancy" |
| V4ViewController.DisplayNameInjective | v4.dummy/ViewController.swift:239-248 | different selections get different names |
| V4ViewController.QRLabelAfterAppDelegateLink | v4.dummy/ViewController.swift:54-65 | after an app-delegate link, the label shows the type token and the segment after it |
| V4ViewController.QRLabelAfterSceneLink | v4.dummy/ViewController.swift:54-65 | after a scene-delegate link, the label shows the first data segment as the "test type". A two-segment link leaves the label unchanged |
| V2ViewController.ClassifyImage | v2.results/ViewController.swift:42-86 | the "antibody_preg1" model is always used. Nothing is shown without a CIImage, on an error or with no observation. Otherwise the first label is shown with the location, date and image |
| V2ViewController.ClassifyImageAsksOnlyPregnancyModel | v2.results/ViewController.swift:48 | two classifiers that agree on "antibody_preg1" produce the same screen |
| V2ViewController.SymbolFor | v2.results/ViewController.swift:247-258 | three exact matches, and the default exactly for every other string |
| V2ViewController.SymbolsDistinct | v2.results/ViewController.swift:247-258 | the four stored symbols are pairwise distinct |

## Left out

- Camera capture, the image picker, view layout, labels other than the QR label, and the alert's presentation. The alert appears only as the message in `ErrorAlert`.
- CoreML and Vision: loading the model from the bundle, building the request, and running it. All of them are the `classify` parameter, whose `ClassifierFailed` covers every failure the source only prints. Whether `CIImage(image:)` succeeds is the `hasCIImage` flag of `Image`.
- CoreLocation: the location manager and the reverse geocoder are parameters. A placemark is reduced to its name, locality and country.
- Date formatting and `Date()`: the date is an input value.
- Notification delivery and `DispatchQueue.main.async`. Posts are logged, but observers are neither registered nor run. This covers version 3's empty `modelChanged` observer and `sceneDidBecomeActive` calling `updateUIWithQRDetails`.
- URL handling by Foundation. `URLComponents(url:).path` is the app-delegate input, with `None` for a URL without components. `absoluteString.removingPercentEncoding` is the scene-delegate input, with `None` when decoding fails. Only `URLContexts.first` is considered.
- V3ViewController.ClassifyImage: the completion handler runs asynchronously and re-reads `ModelManager`. Here it runs in sequence, so it sees the selection the request was made with. `CompleteRequest` takes the completion-time selection as its own parameter.
- V4SceneDelegate.OpenURLContexts: the contract gives the final state and the single post. It does not say that both fields are written before the post, because no observer can run in between here.
- V4SceneDelegate.LinkRoundTrip: covers segments without ':'. A segment holding "testtt://" would itself be stripped.
- The stub handlers: version 4's other `open`, `continue` and `handleOpen` overloads. They print and return without touching `QRCodeDataManager`. Also version 3's `didFinishLaunchingWithOptions` and the scene lifecycle callbacks.
- The `QRCodeModelType` enumeration in version 4's view controller, which nothing uses.
- Versions 0 and 1: their view controllers only wrap the classifier in an alert, and taking the first result is already modelled.
- Debug `print` output.
- Text is compared by Unicode scalar, not by Swift `Character` (extended grapheme cluster). Swift's `split(separator: "|")` does not split at a `|` followed by a combining mark, because the two form one Character. The model does split there. `replacingOccurrences(of:with:)`, a non-literal NSString search, has the same difference.
