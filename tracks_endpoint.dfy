/**
 * The serverless handler of api/tracks.js: method gate, parameter checks,
 * token, catalog request, status mapping and transform. Every error that the
 * handler's `try` catches becomes a 500 with "Server error: " and its message.
 */
module TracksEndpoint {
  import opened Common
  import opened Text
  import opened PlaylistId
  import opened Auth
  import opened Catalog
  import opened Http

  const INVALID_URL: string := "Invalid playlist URL format. Please use a valid Spotify playlist URL."
  const NOT_FOUND: string := "Playlist not found. Make sure the playlist exists and is public."
  const AUTH_FAILED: string := "Authentication failed. Please check Spotify API credentials."
  const FORBIDDEN: string := "Access forbidden. Make sure the playlist is public."
  const NO_ITEMS: string := "No items in playlist response."

  /** The `catch` clause. */
  function ServerError(message: string): (r: Response)
    ensures r.status == 500 && r.body.ErrorBody?
    ensures |r.body.error| == 14 + |message| && r.body.error[14..] == message
    ensures r.body.error[..14] == "Server error: "
  {
    Response(500, ErrorBody("Server error: " + message))
  }

  /** The message for a non-ok catalog status other than 401, 403 and 404. */
  function UpstreamMessage(status: nat, text: string): (r: string)
    ensures |r| > 19 && r[..19] == "Spotify API error ("
    // the upstream body is echoed verbatim at the end
    ensures |text| <= |r| && r[|r| - |text|..] == text
  {
    "Spotify API error (" + DecimalString(status) + "): " + text
  }

  /**
   * Everything the handler answers before it asks for a token: the CORS
   * preflight, the method check and the two checks on `url`. None means the
   * request goes on to the token and the catalog.
   */
  function Preflight(req: Request): (r: Option<Response>)
    ensures req.verb == "OPTIONS" ==> r == Some(Response(200, NoBody))
    ensures req.verb != "OPTIONS" && req.verb != "GET" ==> r == Some(Response(405, ErrorBody("Method not allowed")))
    ensures req.verb == "GET" ==> (r.None? <==> Truthy(req.url) && ExtractStrict(req.url.value).Some?)
    ensures req.verb == "GET" && !Truthy(req.url) ==> r == Some(Response(400, ErrorBody(NO_URL)))
    ensures req.verb == "GET" && r.Some? ==> r.value.status == 400
  {
    if req.verb == "OPTIONS" then Some(Response(200, NoBody))
    else if req.verb != "GET" then Some(Response(405, ErrorBody("Method not allowed")))
    else if !Truthy(req.url) then Some(Response(400, ErrorBody(NO_URL)))
    else if ExtractStrict(req.url.value).None? then Some(Response(400, ErrorBody(INVALID_URL)))
    else None
  }

  /** The response built from the catalog's answer, once a token was obtained. */
  function CatalogOutcome(reply: CatalogReply): (r: Response)
    // success exactly on an ok answer that has `items`
    ensures r.status == 200 <==> reply.CatalogResponse? && HttpOk(reply.status) && reply.items.Some?
    ensures r.status == 200 ==> r.body == TrackList(TransformStrict(reply.items.value))
    // a non-ok status is passed through, with a fixed message for 401, 403 and 404
    ensures reply.CatalogResponse? && !HttpOk(reply.status) ==> r.status == reply.status && r.body.ErrorBody?
    ensures reply.CatalogResponse? && reply.status == 404 ==> r.body == ErrorBody(NOT_FOUND)
    ensures reply.CatalogResponse? && reply.status == 401 ==> r.body == ErrorBody(AUTH_FAILED)
    ensures reply.CatalogResponse? && reply.status == 403 ==> r.body == ErrorBody(FORBIDDEN)
    // an ok answer without `items`, or no answer at all, is a 500
    ensures reply.CatalogResponse? && HttpOk(reply.status) && reply.items.None? ==> r == Response(500, ErrorBody(NO_ITEMS))
    ensures reply.CatalogUnreachable? ==> r == ServerError(reply.reason)
  {
    match reply
    case CatalogUnreachable(reason) => ServerError(reason)
    case CatalogResponse(status, text, items) =>
      if !HttpOk(status) then
        if status == 404 then Response(404, ErrorBody(NOT_FOUND))
        else if status == 401 then Response(401, ErrorBody(AUTH_FAILED))
        else if status == 403 then Response(403, ErrorBody(FORBIDDEN))
        else Response(status, ErrorBody(UpstreamMessage(status, text)))
      else if items.None? then Response(500, ErrorBody(NO_ITEMS))
      else Success(TransformStrict(items.value))
  }

  /** The echoed message names the status: its digits read back as the status. */
  lemma UpstreamMessageNamesStatus(status: nat, text: string)
    ensures var m := UpstreamMessage(status, text);
      var digits := DecimalString(status);
      m[19..19 + |digits|] == digits && DecimalValue(digits) == status
  {
    DecimalRoundTrip(status);
  }

  /**
   * `handler(req, res)` of api/tracks.js, with the module's token cache.
   * `catalog` answers a request for a playlist id with a bearer token.
   */
  method Handle(cache: TokenCache, req: Request, now: int, receivedAt: int,
                clientId: Option<string>, clientSecret: Option<string>, tokenReply: TokenReply,
                catalog: (string, Option<string>) -> CatalogReply) returns (resp: Response)
    modifies cache
    // answered before any token request: the cache is untouched
    ensures Preflight(req).Some? ==> resp == Preflight(req).value && cache.State() == old(cache.State())
    // otherwise the token step runs once on the cache, and its outcome decides
    ensures Preflight(req).None? ==>
      var (token, next) := CheckedGet(old(cache.State()), now, receivedAt, clientId, clientSecret, tokenReply);
      cache.State() == next &&
      resp == match token
              case Err(e) => ServerError(e.Message())
              case Ok(t) => CatalogOutcome(catalog(ExtractStrict(req.url.value).value, t))
  {
    var early := Preflight(req);
    if early.Some? {
      return early.value;
    }
    var playlistId := ExtractStrict(req.url.value).value;
    var token := cache.GetChecked(now, receivedAt, clientId, clientSecret, tokenReply);
    match token
    case Err(e) =>
      resp := ServerError(e.Message());
    case Ok(t) =>
      resp := CatalogOutcome(catalog(playlistId, t));
  }
}
