/**
 * The `/tracks` route of the express server in api/index.js. It checks only
 * that `url` is present, uses the loose id extraction and the unchecked token
 * step, parses the catalog's body whatever its status, and answers 500 when
 * the body has no `items`. An error thrown inside the async route is not
 * caught, so no response is sent: None below.
 */
module IndexRoute {
  import opened Common
  import opened PlaylistId
  import opened Auth
  import opened Catalog
  import opened Http

  const NO_PLAYLIST: string := "Could not fetch playlist."

  /** The response built from the catalog's answer, once a token was obtained. */
  function CatalogOutcome(reply: CatalogReply): (r: Option<Response>)
    // a transport failure throws: nothing is sent
    ensures r.None? <==> reply.CatalogUnreachable?
    // the status of the answer plays no part: only the presence of `items` does
    ensures r.Some? ==> (r.value.status == 200 <==> reply.items.Some?)
    ensures r.Some? && reply.items.Some? ==> r.value.body == TrackList(TransformLoose(reply.items.value))
    ensures r.Some? && reply.items.None? ==> r.value == Response(500, ErrorBody(NO_PLAYLIST))
  {
    match reply
    case CatalogUnreachable(_) => None
    case CatalogResponse(_, _, items) =>
      if items.None? then Some(Response(500, ErrorBody(NO_PLAYLIST)))
      else Some(Success(TransformLoose(items.value)))
  }

  /** A 404 from the catalog carries no `items`, so the route answers 500, not 404. */
  lemma NotFoundBecomesServerError(text: string)
    ensures CatalogOutcome(CatalogResponse(404, text, None)) == Some(Response(500, ErrorBody(NO_PLAYLIST)))
  {
  }

  /**
   * `app.get('/tracks', ...)` of api/index.js, with that file's token cache.
   * `catalog` answers a request for a playlist id with a bearer token.
   */
  method Handle(cache: TokenCache, url: Option<string>, now: int, receivedAt: int,
                tokenReply: TokenReply, catalog: (string, Option<string>) -> CatalogReply) returns (resp: Option<Response>)
    modifies cache
    // a missing or empty `url` is answered before any token request
    ensures !Truthy(url) ==> resp == Some(Response(400, ErrorBody(NO_URL))) && cache.State() == old(cache.State())
    ensures Truthy(url) ==>
      var (token, next) := UncheckedGet(old(cache.State()), now, receivedAt, tokenReply);
      cache.State() == next &&
      resp == match token
              case Err(_) => None
              case Ok(t) => CatalogOutcome(catalog(ExtractLoose(url.value), t))
  {
    if !Truthy(url) {
      return Some(Response(400, ErrorBody(NO_URL)));
    }
    var playlistId := ExtractLoose(url.value);
    var token := cache.GetUnchecked(now, receivedAt, tokenReply);
    match token
    case Err(_) =>
      resp := None;
    case Ok(t) =>
      resp := CatalogOutcome(catalog(playlistId, t));
  }
}
