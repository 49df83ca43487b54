/** The request and response of the `/tracks` endpoints, as the handlers see them. */
module Http {
  import opened Common
  import opened Catalog

  /** `req.method` (verb) and `req.query.url` (None when the parameter is absent). */
  datatype Request = Request(verb: string, url: Option<string>)

  /** An empty body, `{error: ...}`, or the JSON array of tracks. */
  datatype Body = NoBody | ErrorBody(error: string) | TrackList(tracks: seq<Track>)

  datatype Response = Response(status: nat, body: Body)

  const NO_URL: string := "No playlist URL provided."

  /** `res.json(tracks)`: status 200 with the array. */
  function Success(tracks: seq<Track>): Response {
    Response(200, TrackList(tracks))
  }
}
