/**
 * Version 3 ("qrnotdumb"): the test type chosen by a deep link is kept in the
 * `ModelManager` singleton; the link handler takes the type from the SECOND
 * `|`-separated segment of the URL path and stores nothing else.
 */
module V3AppDelegate {
  import opened Wrappers
  import opened Strings
  import opened Notifications

  datatype ModelType = Covid | Pregnancy

  /** The path token that selects each model type. */
  function Token(m: ModelType): string {
    match m
    case Covid => "covid"
    case Pregnancy => "pregnancy"
  }

  /** The handler's `switch`: an exact, case-sensitive match on the two tokens. */
  function ModelFromToken(token: string): (r: Option<ModelType>)
    ensures r.Some? ==> Token(r.value) == token
    ensures forall m :: token == Token(m) ==> r == Some(m)
  {
    match token
    case "covid" => Some(Covid)
    case "pregnancy" => Some(Pregnancy)
    case _ => None
  }

  /**
   * What `application(_:open:options:)` decides from a URL path: the model
   * type named by `segments[1]`, or `None` when there are fewer than two
   * segments or the token is not recognised.
   */
  function ParseLink(path: string): (r: Option<ModelType>)
    ensures var segments := Split(path, Pipe);
      r.Some? <==> |segments| > 1 && ModelFromToken(segments[1]).Some?
    ensures var segments := Split(path, Pipe);
      r.Some? ==> Token(r.value) == segments[1]
  {
    var segments := Split(path, Pipe);
    if |segments| > 1 then ModelFromToken(segments[1]) else None
  }

  /**
   * A link built as `lead|<token>|rest...` from well-formed segments parses
   * to the model the token names, whatever the other segments hold.
   */
  lemma LinkRoundTrip(lead: string, m: ModelType, rest: seq<string>)
    requires IsSegment(lead, Pipe) && AllSegments(rest, Pipe)
    ensures ParseLink(Join([lead, Token(m)] + rest, [Pipe])) == Some(m)
  {
    var parts := [lead, Token(m)] + rest;
    assert AllSegments(parts, Pipe) by {
      forall i | 0 <= i < |parts| ensures IsSegment(parts[i], Pipe) {
        if i >= 2 { assert parts[i] == rest[i - 2]; }
      }
    }
    SplitJoin(parts, Pipe);
  }

  /** The process-wide selection; `currentModel` is `private(set)`. */
  class ModelManager {
    var currentModel: Option<ModelType>

    constructor ()
      ensures currentModel == None
    {
      currentModel := None;
    }

    /** Replaces the selection and posts one "ModelChanged". */
    method SetModel(model: ModelType, center: NotificationCenter)
      modifies this, center
      ensures currentModel == Some(model)
      ensures center.posted == old(center.posted) + [ModelChanged]
    {
      currentModel := Some(model);
      center.Post(ModelChanged);
    }
  }

  /**
   * `application(_:open:options:)`. `path` is `URLComponents(url:).path`, or
   * `None` when the URL has no components. An accepted link goes through
   * `setModel` (one post) and is posted again by the handler (a second post);
   * a rejected one changes nothing and posts nothing.
   */
  method OpenURL(path: Option<string>, manager: ModelManager, center: NotificationCenter)
    returns (handled: bool)
    modifies manager, center
    ensures handled <==> path.Some? && ParseLink(path.value).Some?
    ensures handled ==> manager.currentModel == ParseLink(path.value)
    ensures handled ==> center.posted == old(center.posted) + [ModelChanged, ModelChanged]
    ensures !handled ==> manager.currentModel == old(manager.currentModel)
    ensures !handled ==> center.posted == old(center.posted)
  {
    if path.None? {
      return false;
    }
    var segments := Split(path.value, Pipe);
    if |segments| <= 1 {
      return false;
    }
    var modelType := segments[1];
    if modelType == "covid" {
      manager.SetModel(Covid, center);
      center.Post(ModelChanged);
    } else if modelType == "pregnancy" {
      manager.SetModel(Pregnancy, center);
      center.Post(ModelChanged);
    } else {
      return false;
    }
    return true;
  }
}
