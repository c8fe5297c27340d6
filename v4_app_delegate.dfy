/**
 * Version 4 ("dummy"): the deep link's test type and its data segments are
 * kept in the `QRCodeDataManager` singleton. The app-delegate handler takes
 * the type from the SECOND `|`-separated segment of the URL path and stores
 * every segment after the first, the type token included.
 */
module V4AppDelegate {
  import opened Wrappers
  import opened Strings

  datatype ModelType = Influenza | Pregnancy

  /** The link token that selects each model type. */
  function Token(m: ModelType): string {
    match m
    case Influenza => "influenza"
    case Pregnancy => "pregnancy"
  }

  /** The handlers' `switch`: an exact, case-sensitive match on the two tokens. */
  function ModelFromToken(token: string): (r: Option<ModelType>)
    ensures r.Some? ==> Token(r.value) == token
    ensures forall m :: token == Token(m) ==> r == Some(m)
  {
    match token
    case "influenza" => Some(Influenza)
    case "pregnancy" => Some(Pregnancy)
    case _ => None
  }

  /** What an accepted link writes into `QRCodeDataManager`. */
  datatype Selection = Selection(modelType: ModelType, extractedData: seq<string>)

  /** The process-wide store of the last accepted link. */
  class QRCodeDataManager {
    var extractedData: seq<string>
    var modelType: Option<ModelType>

    constructor ()
      ensures extractedData == [] && modelType == None
    {
      extractedData := [];
      modelType := None;
    }
  }

  /**
   * What `application(_:open:options:)` decides from a URL path: the type
   * named by `segments[1]` and every segment after the first, or `None` when
   * there are fewer than two segments or the token is not recognised.
   */
  function ParseLink(path: string): (r: Option<Selection>)
    ensures var segments := Split(path, Pipe);
      r.Some? <==> |segments| > 1 && ModelFromToken(segments[1]).Some?
    ensures var segments := Split(path, Pipe);
      r.Some? ==> Token(r.value.modelType) == segments[1] && r.value.extractedData == segments[1..]
    ensures r.Some? ==> |r.value.extractedData| > 0 && r.value.extractedData[0] == Token(r.value.modelType)
  {
    var segments := Split(path, Pipe);
    if |segments| <= 1 then None
    else match ModelFromToken(segments[1])
      case None => None
      case Some(m) => Some(Selection(m, segments[1..]))
  }

  /**
   * A link built as `lead|<token>|rest...` from well-formed segments is
   * accepted with the token's type, and the stored data is the token
   * followed by `rest`.
   */
  lemma LinkRoundTrip(lead: string, m: ModelType, rest: seq<string>)
    requires IsSegment(lead, Pipe) && AllSegments(rest, Pipe)
    ensures ParseLink(Join([lead, Token(m)] + rest, [Pipe])) == Some(Selection(m, [Token(m)] + rest))
  {
    var parts := [lead, Token(m)] + rest;
    assert AllSegments(parts, Pipe) by {
      forall i | 0 <= i < |parts| ensures IsSegment(parts[i], Pipe) {
        if i >= 2 { assert parts[i] == rest[i - 2]; }
      }
    }
    SplitJoin(parts, Pipe);
    assert parts[1..] == [Token(m)] + rest;
  }

  /**
   * `application(_:open:options:)`. `path` is `URLComponents(url:).path`, or
   * `None` when the URL has no components. An accepted link replaces both
   * fields; a rejected one leaves the store as it was. This handler posts no
   * notification.
   */
  method OpenURL(path: Option<string>, store: QRCodeDataManager) returns (handled: bool)
    modifies store
    ensures handled <==> path.Some? && ParseLink(path.value).Some?
    ensures handled ==> store.modelType == Some(ParseLink(path.value).value.modelType)
    ensures handled ==> store.extractedData == ParseLink(path.value).value.extractedData
    ensures !handled ==> store.modelType == old(store.modelType) && store.extractedData == old(store.extractedData)
  {
    if path.None? {
      return false;
    }
    var segments := Split(path.value, Pipe);
    if |segments| <= 1 {
      return false;
    }
    var modelTypeString := segments[1];
    if modelTypeString == "influenza" {
      store.modelType := Some(Influenza);
    } else if modelTypeString == "pregnancy" {
      store.modelType := Some(Pregnancy);
    } else {
      return false;
    }
    store.extractedData := segments[1..];
    return true;
  }
}
