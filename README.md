# Guessify core, modelled in Dafny

Guessify is a browser game. It plays the preview clips of a public Spotify playlist and the player names each song or its artist. This project models the logic behind it:

- **Playlist-id extraction.** There are two variants. The serverless handler in `api/tracks.js` tries `playlist/<id>`, then `playlist:<id>`, then a bare id, and otherwise answers null. The express server in `api/index.js` tries only `playlist/<id>` and otherwise returns the input unchanged. The three regular expressions are written as direct scans over `seq<char>` (module `PlaylistId`).
- **Bearer-token cache.** Each server file keeps a token and its expiry in two module-level variables. `getSpotifyToken` refreshes them when the token is falsy or the clock has passed the expiry. Module `Auth` holds the pure step functions `CheckedGet` (api/tracks.js) and `UncheckedGet` (api/index.js). It also holds the class `TokenCache`, whose methods update the two fields and are proved against those functions.
- **Track transform.** Both files keep the items whose track is present and has a truthy `preview_url`, in order. Each kept track becomes `{name, artist, preview_url}`, with the artist names joined by `", "` (module `Catalog`).
- **Endpoint outcomes.** `TracksEndpoint` models the api/tracks.js handler: the method gate, the 400s, the status mapping and the 500s. `IndexRoute` models the `/tracks` route of api/index.js.
- **Client session.** `Game` models the guess check of client/src/App.jsx and the class `Session`. The session holds the component state (`tracks`, `current`, `guess`, `message`, `showAnswer`, `gameStarted`, `playlistUrl`). `fetchTracks`, `checkGuess` and `nextTrack` are methods on it, each guarded by the condition under which the page shows its button. `Session.Valid()` is the invariant that every method keeps:
  - before the game starts, nothing has been played;
  - once it has started, `current` never passes the end of the list;
  - the answer is shown only for an existing track that the current guess matches.

  This is why `current` advances only after a correct guess.

Inputs the code reads from its environment are parameters:
- the two clock readings (`Date.now()` at the check and after the token response arrives);
- the client id and secret from `process.env`;
- the token endpoint's answer (`TokenReply`);
- the catalog, as a function from a playlist id and a bearer token to its answer (`CatalogReply`);
- the client's fetch result (`FetchReply`).

Guess matching (client/src/App.jsx:29-31) is one-way containment: the lower-cased name or the lower-cased artist must occur in the lower-cased guess. The guess is not trimmed.

Two details of JavaScript are kept:
- **NaN expiry.** `tokenExpiresAt` becomes NaN when a token response has no `expires_in`. Every comparison with NaN is false, so a non-empty token stored without `expires_in` is never refreshed (`Auth.Expiry.NaN`).
- **Empty `items`.** An empty `items` array is truthy, so an empty playlist is a 200 with `[]`.

## Model

| member | source | states |
|---|---|---|
| `PlaylistId.AlnumRun` | api/tracks.js:49 | what the greedy group `([a-zA-Z0-9]+)` captures: the longest prefix made only of letters and digits; the character after it, if any, is neither |
| `PlaylistId.FirstMatch` | api/tracks.js:55 | the leftmost index at which the marker occurs and is followed by a letter or digit; no earlier index matches; None only when no index matches |
| `PlaylistId.Capture` | api/tracks.js:55-58 | `url.match(pattern)` with one marker: null exactly when the pattern matches nowhere; otherwise a non-empty capture of letters and digits |
| `PlaylistId.CaptureAtFirstMatch` | api/tracks.js:55-58 | the capture is the run after the leftmost match, whatever matches later |
| `PlaylistId.ExtractStrict` | api/tracks.js:45-64 | null exactly when neither `playlist/<id>` nor `playlist:<id>` matches anywhere and the input is not a bare id; any non-null result is a non-empty string of ASCII letters and digits |
| `PlaylistId.ExtractStrictSlashFirst` | api/tracks.js:48-59 | the leftmost `playlist/<id>` decides the result, even when `playlist:<id>` occurs earlier in the input |
| `PlaylistId.ExtractStrictColonSecond` | api/tracks.js:50 | without any `playlist/<id>`, the leftmost `playlist:<id>` decides |
| `PlaylistId.ExtractStrictBareLast` | api/tracks.js:51 | without either marker, an input made wholly of letters and digits is returned unchanged |
| `PlaylistId.ExtractStrictIdempotent` | api/tracks.js:51-58 | extracting from a non-null result gives that result again |
| `PlaylistId.ExtractLoose` | api/index.js:28-31 | never null: the input itself when `playlist/<id>` matches nowhere, otherwise a bare id |
| `PlaylistId.ExtractLooseIdempotent` | api/index.js:29-30 | the loose variant is idempotent on every input |
| `PlaylistId.VariantsAgreeOnSlash` | api/index.js:29 | when `playlist/<id>` matches, both variants extract the same id |
| `PlaylistId.ShareLinkExample` | api/tracks.js:49 | `/playlist/ab?si=x` gives `ab` in both variants: the id stops at `?` |
| `PlaylistId.UnparseableExample` | api/tracks.js:62-63 | `a b` gives null in the strict variant and itself in the loose one |
| `Text.Lower` | client/src/App.jsx:30-31 | `toLowerCase` on ASCII: same length, each character lowered, and no upper-case letter is left |
| `Text.Includes` | client/src/App.jsx:30-31 | `String.prototype.includes`: a string never contains a longer one, and always contains itself and the empty string |
| `Text.IncludesIff` | client/src/App.jsx:30-31 | the `includes` scan succeeds exactly when the needle occurs at some index of the string |
| `Text.Join` | api/tracks.js:158 | `.join(', ')`: a non-empty list's join starts with its first part and ends with its last |
| `Text.JoinAppend` | api/tracks.js:158 | joining two non-empty lists puts exactly one separator between the two joins |
| `Text.JoinLength` | api/tracks.js:158 | a join is as long as its parts plus one separator between each pair of neighbours |
| `Text.DecimalString` | api/tracks.js:128 | `${status}` is a non-empty run of decimal digits with no leading zero |
| `Text.DecimalRoundTrip` | api/tracks.js:128 | reading the rendered digits back gives the status |
| `Auth.NeedsRefresh` | api/tracks.js:7 | `!accessToken \|\| Date.now() > tokenExpiresAt` (also api/index.js:14): a falsy token is always refreshed; a truthy one only when the clock is strictly past a numeric expiry, and never under a NaN expiry |
| `Auth.CheckedGet` | api/tracks.js:6-43 | a truthy token not past its expiry is returned with no state change, including at the expiry instant; missing credentials, a non-ok answer or a transport failure throw and leave both variables unchanged; a refresh succeeds exactly on an ok answer and stores `access_token` with expiry `receivedAt + (expires_in - 60) * 1000`; the returned token is the cached one |
| `Auth.UncheckedGet` | api/index.js:13-26 | the same reuse rule; with no credential check and no ok check, only a transport failure throws (no change); any answer's `access_token` and expiry are stored and returned |
| `Auth.TokenCache.constructor` | api/tracks.js:3-4 | starts with a null token and expiry 0 |
| `Auth.TokenCache.GetChecked` | api/tracks.js:6-43 | the returned value and the new fields are exactly those of `CheckedGet` on the old fields |
| `Auth.TokenCache.GetUnchecked` | api/index.js:13-26 | the returned value and the new fields are exactly those of `UncheckedGet` on the old fields |
| `Auth.FirstCallRefreshes` | api/tracks.js:3-7 | the first call always refreshes |
| `Auth.ReusedUntilExpiry` | api/tracks.js:7-39 | after storing a non-empty token with lifetime s, a call at `now` reuses it iff `now <= receivedAt + (s - 60) * 1000` |
| `Auth.ShortLifetimeExpiresAtOnce` | api/tracks.js:39 | with a lifetime of at most 60 s, every later call refreshes |
| `Auth.MissingLifetimeNeverExpires` | api/tracks.js:39 | a non-empty token stored without `expires_in` has a NaN expiry and is never refreshed |
| `Auth.UncheckedStoresRejection` | api/index.js:21-23 | on a non-ok answer without a token, api/index.js returns and stores a null token, so the next call refreshes again |
| `Auth.CheckedKeepsOnRejection` | api/tracks.js:31-35 | on the same answer, api/tracks.js throws with the answer's text and keeps its cache |
| `Catalog.ArtistNames` | api/tracks.js:158 | `artists.map(a => a.name)`: same length, the names in order |
| `Catalog.Project` | api/tracks.js:156-160 | `name` and `preview_url` are copied, and the preview is non-empty; `artist` is the names joined by ", ": a single artist's name, or "" when there are no artists |
| `Catalog.ProjectAll` | api/tracks.js:156-160 | the final `map`: one projected track per input track, in order |
| `Catalog.PresentTracks` | api/tracks.js:141-148 | the first map and filter: no longer than `items`, and every track kept comes from an item that holds it |
| `Catalog.WithPreview` | api/tracks.js:149-155 | the preview filter: keeps only tracks that have a truthy `preview_url`, all taken from its input |
| `Catalog.TransformStrict` | api/tracks.js:140-160 | no more tracks than items, and no output track has an empty preview |
| `Catalog.PlayableTracks` | api/index.js:45-46 | `filter(track => track && track.preview_url)`: only present tracks with a truthy preview, each from an item of the input |
| `Catalog.TransformLoose` | api/index.js:44-51 | no more tracks than items, and no output track has an empty preview |
| `Catalog.FiltersAgree` | api/index.js:46 | the two filters of api/tracks.js keep exactly what the one filter of api/index.js keeps |
| `Catalog.TransformsAgree` | api/index.js:44-51 | both server files send the same tracks for the same payload |
| `Catalog.PlayableTracksAppend` | api/index.js:45-46 | the combined filter distributes over concatenation |
| `Catalog.TransformAppend` | api/tracks.js:140-160 | the output for `a + b` is the output for `a` followed by that for `b`; with `TransformSingle` this fixes the output as the in-order subsequence of playable items, projected |
| `Catalog.TransformSingle` | api/tracks.js:142-159 | one item yields its projected track when the track is present with a truthy preview, and nothing otherwise |
| `Catalog.TransformLength` | api/tracks.js:148-155 | the output has exactly as many tracks as the payload has playable items |
| `Catalog.OneOfTwoPlayableExample` | api/tracks.js:149-155 | two items, one with a preview and one with a null preview, give one track |
| `TracksEndpoint.Preflight` | api/tracks.js:72-95 | OPTIONS gives 200; other non-GET methods give 405; for GET, a missing or empty `url` gives 400 "No playlist URL provided."; the request passes on exactly when `url` is truthy and the strict extraction is non-null; otherwise 400 |
| `TracksEndpoint.CatalogOutcome` | api/tracks.js:109-165 | 200 exactly on an ok answer with `items`, and then the body is the strict transform of them; a non-ok status s is answered with s, with the fixed messages for 404, 401 and 403; ok without `items` gives 500; a transport failure gives 500 "Server error: ..." |
| `TracksEndpoint.ServerError` | api/tracks.js:166-170 | the `catch` answer: status 500 with an `error` that is "Server error: " followed by the thrown message unchanged |
| `TracksEndpoint.UpstreamMessage` | api/tracks.js:127-129 | the message for any other non-ok status starts with "Spotify API error (" and ends with the catalog's body text, unchanged |
| `TracksEndpoint.UpstreamMessageNamesStatus` | api/tracks.js:127-129 | the echoed error message carries the status in decimal |
| `TracksEndpoint.Handle` | api/tracks.js:66-172 | a request answered by `Preflight` leaves the token cache untouched; otherwise the cache takes one `CheckedGet` step; a token error gives 500 "Server error: " + its message; otherwise the answer for the extracted id is mapped by `CatalogOutcome` |
| `IndexRoute.CatalogOutcome` | api/index.js:41-53 | no response exactly on a transport failure; 200 exactly when the body has `items`, whatever the status, and then the loose transform of them; otherwise 500 "Could not fetch playlist." |
| `IndexRoute.NotFoundBecomesServerError` | api/index.js:41-42 | a catalog 404 is answered with 500 |
| `IndexRoute.Handle` | api/index.js:33-54 | a missing or empty `url` gives 400 before any token request, and the cache is unchanged; otherwise one `UncheckedGet` step; its transport failure sends nothing; otherwise the catalog's answer for the loosely extracted id decides |
| `Game.GuessMatches` | client/src/App.jsx:29-31 | the `checkGuess` match: a correct guess is at least as long as the name or the artist, because containment runs one way (so "yell" is wrong for "Yellow"); a track with an empty name or artist accepts every guess |
| `Game.GuessMatchesIff` | client/src/App.jsx:29-31 | a guess is correct exactly when the lower-cased name or artist occurs somewhere in the lower-cased guess |
| `Game.GuessCaseIgnored` | client/src/App.jsx:30-31 | letter case in the guess, the name or the artist does not change the verdict |
| `Game.NameOrArtistMatches` | client/src/App.jsx:30-31 | typing the name, or the artist, in any letter case is correct |
| `Game.YellowArtistExample` | client/src/App.jsx:29-34 | "coldplay" is correct for "Yellow" by "Coldplay" |
| `Game.YellowWrongWordExample` | client/src/App.jsx:29-37 | "purple" is wrong for "Yellow" by "Coldplay" |
| `Game.YellowPrefixExample` | client/src/App.jsx:29-37 | "yell" is wrong for "Yellow" by "Coldplay": no trimming or reverse containment |
| `Game.Session.constructor` | client/src/App.jsx:5-11 | the initial state: nothing loaded, index 0, empty guess and message, answer hidden, not started |
| `Game.Session.EditPlaylistUrl` | client/src/App.jsx:56 | on the start page, only `playlistUrl` changes |
| `Game.Session.EditGuess` | client/src/App.jsx:78-79 | only while Submit is offered (the input is disabled otherwise), and only `guess` changes |
| `Game.Session.FetchTracks` | client/src/App.jsx:13-25 | resets `current` to 0, `guess` to "" and `showAnswer` to false; an array answer becomes `tracks` and starts the game with an empty message; a non-array answer starts a game that is over at once; a failed fetch leaves the game unstarted with "Loading..." |
| `Game.Session.CheckGuess` | client/src/App.jsx:27-38 | on a correct guess the answer is shown with "✅ Correct!"; on a wrong one the message is "❌ Try again!" and `showAnswer` is unchanged; `tracks`, `current`, `guess` and `gameStarted` never change, and the invariant holds |
| `Game.Session.NextTrack` | client/src/App.jsx:40-45 | only while Next is offered; `current` goes up by one, and `guess`, `showAnswer` and `message` are reset; nothing else changes; the guess left behind matched the track, so the player moved on only after a correct guess; the game is now over iff `current` reached the end of `tracks` |

The guards `SubmitOffered` and `NextOffered` come from client/src/App.jsx:82-86. `GameOver` comes from lines 65-66. The invariant `Session.Valid()` is stated on the class itself.

## Left out

- Network calls are parameters, not modelled. This covers the OAuth 2.0 client-credentials exchange (section 4.4 of RFC 6749), the Basic authorization header (section 2 of RFC 7617) with its base64 encoding, and the catalog request URL with `limit=50`. The token endpoint's and the catalog's answers are abstract inputs.
- Not modelled: `console.log`/`console.error`, CORS headers, express and `cors` wiring, `app.listen`, `dotenv`, and the `NODE_ENV` switch. They are plumbing.
- JSON parsing is replaced by datatypes. A body that is not JSON, or `res.text()` failing, is not modelled.
- Tracks without `artists`: the model assumes every present track has an `artists` array. In the source, a present track without one makes `track.artists.map` throw.
- Values of the wrong type are not modelled: a non-string `url` (a repeated query parameter), or a non-numeric `expires_in`.
- Concurrency. Concurrent requests racing on the token cache are not modelled: calls are taken one at a time. On the client, `FetchTracks` is one step. A second Start click whose fetch completes after the player has moved on is not modelled.
- JSX rendering, the `<audio>` element, `encodeURIComponent`, and the "Track i / n" counter are UI and are not modelled.
- `toLowerCase` is modelled on ASCII letters only. Other Unicode case mappings are not modelled.
- client/vite.config.js (build configuration) and api/test.js (echoes environment presence) are not part of this model.
- Game.Session.FetchTracks: a non-array JSON answer (the server's `{error}` object) is stored as an empty list rather than the object itself. The only observable effect, the game-over page, is the same.
- IndexRoute.Handle: an error thrown inside the async route is modelled as "no response sent", and the token cache keeps the value the call left it with. Express 4 does not catch the rejection. What follows is up to the Node runtime: since Node 15 the default is to end the process, which would also reset `accessToken` and `tokenExpiresAt` to their initial values. The model assumes the process survives. The express and Node versions are not part of this model.
