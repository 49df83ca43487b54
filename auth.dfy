/**
 * The bearer-token cache of the server: a token and its expiry instant, held
 * in two module-level variables and refreshed by `getSpotifyToken` when the
 * token is falsy or the clock has passed the expiry. The clock readings, the
 * client credentials and the token endpoint's answer are parameters.
 */
module Auth {
  import opened Common

  /**
   * `tokenExpiresAt` as JavaScript holds it: milliseconds since the epoch, or
   * NaN once a token response without `expires_in` has been stored.
   */
  datatype Expiry = At(ms: int) | NaN

  /** `now > tokenExpiresAt`: every comparison with NaN is false. */
  predicate Past(now: int, e: Expiry) {
    e.At? && now > e.ms
  }

  /** The two cached variables. */
  datatype Cache = Cache(token: Option<string>, expiresAt: Expiry)

  /** `let accessToken = null; let tokenExpiresAt = 0;` */
  const INITIAL: Cache := Cache(None, At(0))

  /** Seconds taken off `expires_in` so that the token is refreshed early. */
  const MARGIN_SECONDS: int := 60

  /** `!accessToken || Date.now() > tokenExpiresAt` */
  predicate NeedsRefresh(c: Cache, now: int)
    // a falsy token is always refreshed
    ensures !Truthy(c.token) ==> NeedsRefresh(c, now)
    // a truthy token is refreshed only once the clock is strictly past a numeric expiry, never under NaN
    ensures Truthy(c.token) && c.expiresAt.NaN? ==> !NeedsRefresh(c, now)
    ensures Truthy(c.token) && c.expiresAt.At? ==> (NeedsRefresh(c, now) <==> now > c.expiresAt.ms)
  {
    !Truthy(c.token) || Past(now, c.expiresAt)
  }

  /** What the token endpoint answered: a transport failure, or a status with its raw text and the JSON fields its body parsed to. */
  datatype TokenReply =
    | TokenUnreachable(reason: string)
    | TokenResponse(status: nat, text: string, accessToken: Option<string>, expiresIn: Option<int>)

  /** The errors `getSpotifyToken` throws. */
  datatype TokenError = MissingCredentials | Rejected(text: string) | Transport(reason: string) {
    /** `error.message` */
    function Message(): string {
      match this
      case MissingCredentials => "Missing Spotify credentials"
      case Rejected(text) => "Failed to get Spotify token: " + text
      case Transport(reason) => reason
    }
  }

  /** `Date.now() + (data.expires_in - 60) * 1000`; NaN when `expires_in` is absent. */
  function ExpiryAfter(receivedAt: int, expiresIn: Option<int>): Expiry {
    match expiresIn
    case Some(seconds) => At(receivedAt + (seconds - MARGIN_SECONDS) * 1000)
    case None => NaN
  }

  /** The cache after storing a token response received at `receivedAt`. */
  function Stored(reply: TokenReply, receivedAt: int): Cache
    requires reply.TokenResponse?
  {
    Cache(reply.accessToken, ExpiryAfter(receivedAt, reply.expiresIn))
  }

  /**
   * `getSpotifyToken` of api/tracks.js: the returned token (or the thrown
   * error) and the cache afterwards. `now` is the reading of the clock at the
   * check, `receivedAt` the reading after the token response arrived.
   */
  function CheckedGet(c: Cache, now: int, receivedAt: int, clientId: Option<string>,
                      clientSecret: Option<string>, reply: TokenReply): (r: (Result<Option<string>, TokenError>, Cache))
    // a fresh token is returned as it is, and nothing changes
    ensures !NeedsRefresh(c, now) ==> r == (Ok(c.token), c)
    // a throw leaves both variables as they were
    ensures r.0.Err? ==> r.1 == c
    // what is returned is what is cached
    ensures r.0.Ok? ==> r.0.value == r.1.token
    // the credentials are checked before the endpoint is asked
    ensures NeedsRefresh(c, now) && !(Truthy(clientId) && Truthy(clientSecret)) ==> r.0 == Err(MissingCredentials)
    // a refresh succeeds exactly on an ok answer, and stores it
    ensures NeedsRefresh(c, now) && Truthy(clientId) && Truthy(clientSecret) ==>
      (r.0.Ok? <==> reply.TokenResponse? && HttpOk(reply.status))
    ensures NeedsRefresh(c, now) && r.0.Ok? ==> r.1 == Stored(reply, receivedAt)
  {
    if !NeedsRefresh(c, now) then (Ok(c.token), c)
    else if !Truthy(clientId) || !Truthy(clientSecret) then (Err(MissingCredentials), c)
    else
      match reply
      case TokenUnreachable(reason) => (Err(Transport(reason)), c)
      case TokenResponse(status, text, _, _) =>
        if !HttpOk(status) then (Err(Rejected(text)), c)
        else
          var next := Stored(reply, receivedAt);
          (Ok(next.token), next)
  }

  /**
   * `getSpotifyToken` of api/index.js: no credential check and no `ok` check;
   * whatever the body holds is stored. Only a transport failure throws.
   */
  function UncheckedGet(c: Cache, now: int, receivedAt: int, reply: TokenReply): (r: (Result<Option<string>, TokenError>, Cache))
    ensures !NeedsRefresh(c, now) ==> r == (Ok(c.token), c)
    ensures r.0.Err? <==> NeedsRefresh(c, now) && reply.TokenUnreachable?
    ensures r.0.Err? ==> r.1 == c
    ensures r.0.Ok? ==> r.0.value == r.1.token
    ensures NeedsRefresh(c, now) && reply.TokenResponse? ==> r.1 == Stored(reply, receivedAt)
  {
    if !NeedsRefresh(c, now) then (Ok(c.token), c)
    else
      match reply
      case TokenUnreachable(reason) => (Err(Transport(reason)), c)
      case TokenResponse(_, _, _, _) =>
        var next := Stored(reply, receivedAt);
        (Ok(next.token), next)
  }

  /** The two module-level variables of one server file. */
  class TokenCache {
    var accessToken: Option<string>
    var tokenExpiresAt: Expiry

    function State(): Cache
      reads this
    {
      Cache(accessToken, tokenExpiresAt)
    }

    constructor ()
      ensures State() == INITIAL
    {
      accessToken := None;
      tokenExpiresAt := At(0);
    }

    /** `getSpotifyToken` of api/tracks.js, on this cache. */
    method GetChecked(now: int, receivedAt: int, clientId: Option<string>,
                      clientSecret: Option<string>, reply: TokenReply) returns (r: Result<Option<string>, TokenError>)
      modifies this
      ensures (r, State()) == CheckedGet(old(State()), now, receivedAt, clientId, clientSecret, reply)
    {
      if !Truthy(accessToken) || Past(now, tokenExpiresAt) {
        if !Truthy(clientId) || !Truthy(clientSecret) {
          return Err(MissingCredentials);
        }
        match reply
        case TokenUnreachable(reason) =>
          return Err(Transport(reason));
        case TokenResponse(status, text, token, expiresIn) =>
          if !HttpOk(status) {
            return Err(Rejected(text));
          }
          accessToken := token;
          tokenExpiresAt := ExpiryAfter(receivedAt, expiresIn);
      }
      return Ok(accessToken);
    }

    /** `getSpotifyToken` of api/index.js, on this cache. */
    method GetUnchecked(now: int, receivedAt: int, reply: TokenReply) returns (r: Result<Option<string>, TokenError>)
      modifies this
      ensures (r, State()) == UncheckedGet(old(State()), now, receivedAt, reply)
    {
      if !Truthy(accessToken) || Past(now, tokenExpiresAt) {
        match reply
        case TokenUnreachable(reason) =>
          return Err(Transport(reason));
        case TokenResponse(_, _, token, expiresIn) =>
          accessToken := token;
          tokenExpiresAt := ExpiryAfter(receivedAt, expiresIn);
      }
      return Ok(accessToken);
    }
  }

  // ---- properties ----

  /** The first call always refreshes: the initial token is null. */
  lemma FirstCallRefreshes(now: int)
    ensures NeedsRefresh(INITIAL, now)
  {
  }

  /**
   * After a refresh that stored a non-empty token with lifetime `seconds`,
   * every later call up to and including the expiry instant reuses it and
   * changes nothing; the first instant after it refreshes again.
   */
  lemma ReusedUntilExpiry(reply: TokenReply, receivedAt: int, seconds: int, now: int)
    requires reply.TokenResponse? && Truthy(reply.accessToken) && reply.expiresIn == Some(seconds)
    ensures var c := Stored(reply, receivedAt);
      var expiry := receivedAt + (seconds - MARGIN_SECONDS) * 1000;
      (now <= expiry ==> !NeedsRefresh(c, now)) &&
      (now > expiry ==> NeedsRefresh(c, now))
  {
  }

  /** A lifetime of at most 60 seconds gives an expiry no later than the refresh itself. */
  lemma ShortLifetimeExpiresAtOnce(reply: TokenReply, receivedAt: int, seconds: int)
    requires reply.TokenResponse? && reply.expiresIn == Some(seconds) && seconds <= MARGIN_SECONDS
    ensures forall now :: now > receivedAt ==> NeedsRefresh(Stored(reply, receivedAt), now)
  {
  }

  /** A non-empty token stored without `expires_in` is never refreshed again: its expiry is NaN. */
  lemma MissingLifetimeNeverExpires(reply: TokenReply, receivedAt: int, now: int)
    requires reply.TokenResponse? && Truthy(reply.accessToken) && reply.expiresIn.None?
    ensures !NeedsRefresh(Stored(reply, receivedAt), now)
  {
  }

  /** The api/index.js cache stores an error body's missing token, so the next call refreshes again. */
  lemma UncheckedStoresRejection(c: Cache, now: int, receivedAt: int, later: int, status: nat, text: string)
    requires NeedsRefresh(c, now) && !HttpOk(status)
    ensures var reply := TokenResponse(status, text, None, None);
      var (r, next) := UncheckedGet(c, now, receivedAt, reply);
      r == Ok(None) && NeedsRefresh(next, later)
  {
  }

  /** The api/tracks.js cache throws on the same answer and keeps what it had. */
  lemma CheckedKeepsOnRejection(c: Cache, now: int, receivedAt: int, id: string, secret: string, status: nat, text: string)
    requires NeedsRefresh(c, now) && !HttpOk(status) && id != "" && secret != ""
    ensures CheckedGet(c, now, receivedAt, Some(id), Some(secret), TokenResponse(status, text, None, None))
      == (Err(Rejected(text)), c)
  {
  }
}
