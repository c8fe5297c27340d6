/**
 * Version 4's scene-delegate link handler: it strips the "testtt://" scheme
 * from the whole decoded URL string and takes the test type from the FIRST
 * `|`-separated segment; the stored data excludes that segment.
 */
module V4SceneDelegate {
  import opened Wrappers
  import opened Strings
  import opened Notifications
  import opened V4AppDelegate

  const Scheme: string := "testtt://"

  /**
   * The first URL context's URL: `decoded` is
   * `url.absoluteString.removingPercentEncoding`, `None` when decoding fails.
   */
  datatype OpenedURL = OpenedURL(decoded: Option<string>)

  /** The path the handler splits: the decoded string (or "") without any "testtt://". */
  function StrippedPath(url: OpenedURL): (r: string)
    ensures url.decoded.None? ==> r == ""
    ensures |r| <= |url.decoded.GetOr("")|
  {
    RemoveAll(url.decoded.GetOr(""), Scheme)
  }

  /**
   * What `scene(_:openURLContexts:)` decides from the stripped path: the type
   * named by `segments[0]` and the segments after it, or `None` when there
   * are fewer than two segments or the token is not recognised.
   */
  function ParseLink(path: string): (r: Option<Selection>)
    ensures var segments := Split(path, Pipe);
      r.Some? <==> |segments| > 1 && ModelFromToken(segments[0]).Some?
    ensures var segments := Split(path, Pipe);
      r.Some? ==> Token(r.value.modelType) == segments[0] && r.value.extractedData == segments[1..]
    ensures r.Some? ==> |r.value.extractedData| > 0
  {
    var segments := Split(path, Pipe);
    if |segments| <= 1 then None
    else match ModelFromToken(segments[0])
      case None => None
      case Some(m) => Some(Selection(m, segments[1..]))
  }

  /** A URL whose decoding fails is treated as "" and rejected. */
  lemma FailedDecodeRejected()
    ensures ParseLink(StrippedPath(OpenedURL(None))) == None
  {
    assert StrippedPath(OpenedURL(None)) == "";
    assert Split("", Pipe) == [];
  }

  /** Stripping the scheme from `testtt://` + a ':'-free body gives the body back. */
  lemma StripScheme(body: string)
    requires ':' !in body
    ensures StrippedPath(OpenedURL(Some(Scheme + body))) == body
  {
    RemoveAllLeading(Scheme, body);
    assert Scheme[6] == ':';
    AbsentCharMeansNoOccurrence(body, Scheme, 6);
    RemoveAllAbsent(body, Scheme);
  }

  /**
   * `testtt://` followed by well-formed segments holding no ':' and joined
   * with '|' is accepted when the FIRST segment is a type token; the stored
   * data is the segments after it, so the type token itself is not stored.
   */
  lemma {:induction false} LinkRoundTrip(parts: seq<string>, m: ModelType)
    requires |parts| > 1 && parts[0] == Token(m)
    requires AllSegments(parts, Pipe)
    requires forall i :: 0 <= i < |parts| ==> ':' !in parts[i]
    ensures ParseLink(StrippedPath(OpenedURL(Some(Scheme + Join(parts, [Pipe]))))) == Some(Selection(m, parts[1..]))
  {
    var body := Join(parts, [Pipe]);
    JoinAvoids(parts, [Pipe], ':');
    StripScheme(body);
    SplitJoin(parts, Pipe);
  }

  /**
   * `scene(_:openURLContexts:)`. `first` is `URLContexts.first`. An accepted
   * link writes both fields and then posts one "ModelChanged"; a missing
   * context, a short link or an unknown token returns before any write or
   * post.
   */
  method OpenURLContexts(first: Option<OpenedURL>, store: QRCodeDataManager, center: NotificationCenter)
    modifies store, center
    ensures var accepted := first.Some? && ParseLink(StrippedPath(first.value)).Some?;
      accepted ==>
        store.modelType == Some(ParseLink(StrippedPath(first.value)).value.modelType)
        && store.extractedData == ParseLink(StrippedPath(first.value)).value.extractedData
        && center.posted == old(center.posted) + [ModelChanged]
    ensures var accepted := first.Some? && ParseLink(StrippedPath(first.value)).Some?;
      !accepted ==>
        store.modelType == old(store.modelType) && store.extractedData == old(store.extractedData)
        && center.posted == old(center.posted)
  {
    if first.None? {
      return;
    }
    var decodedURLString := first.value.decoded.GetOr("");
    var path := RemoveAll(decodedURLString, Scheme);
    var segments := Split(path, Pipe);
    if |segments| <= 1 {
      return;
    }
    var modelTypeString := segments[0];
    if modelTypeString == "influenza" {
      store.modelType := Some(Influenza);
    } else if modelTypeString == "pregnancy" {
      store.modelType := Some(Pregnancy);
    } else {
      return;
    }
    store.extractedData := segments[1..];
    center.Post(ModelChanged);
  }

  /**
   * The two version-4 handlers read different segments: the same path
   * `<token>|<batch>` is accepted here and rejected by the app delegate,
   * which takes the batch as the type token.
   */
  lemma HandlersDisagree(m: ModelType, batch: string)
    requires IsSegment(batch, Pipe) && ModelFromToken(batch).None?
    ensures var path := Join([Token(m), batch], [Pipe]);
      ParseLink(path) == Some(Selection(m, [batch])) && V4AppDelegate.ParseLink(path) == None
  {
    var parts := [Token(m), batch];
    assert AllSegments(parts, Pipe);
    SplitJoin(parts, Pipe);
    assert parts[1..] == [batch];
  }
}
