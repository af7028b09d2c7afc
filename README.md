# Spotify X-Ray: the token lifecycle and the live stream, in Dafny

This project models the core of a small FastAPI service that shows a Spotify
listener's "now playing" track in the browser, enriched with a description of
the song. It covers two revisions of the service.

- **The newer revision** (`src/`) has four parts:
  - the OAuth 2.0 authorization-code flow against the Spotify accounts
    service: the redirect with a CSRF `state`, the single-use redemption of
    that state, the code exchange and the refresh;
  - the classification of the currently-playing reply;
  - the field accessors, the artist list and the adaptive poll delay
    (`smart_poll`);
  - the `/xray` server-sent-events stream, whose loop polls, enriches a
    playing track through a cache-aside lookup, yields one event and sleeps.
- **The older revision** (`main.py`, `spotify.py`, `utils.py`) has:
  - `/authorize`;
  - the `/home` callback, which hands both raw tokens to the client;
  - a store-free `/refresh_token`;
  - a fixed five-second `/xray` loop;
  - a `get_current_playing` that turns every failure into an error record.

## How the model is built

- The shared Redis instance is `KeyValueStore.Store`, a class whose methods
  update its maps.
- Every handler that touches the store has two parts:
  - a pure specification function over `Snapshot`, whose contract states
    what changes and what does not;
  - a method whose `ensures` ties the new store state and the result to
    that function.
- The stream is the class `App.Stream`:
  - its fields are the poll delay and what has been yielded and slept so far;
  - `Cycle` is one pass of the `while True` body;
  - `Serve` runs the passes for a finite sequence of poll outcomes and is
    proved equal to `App.Run`.
- An EventSource reader follows section 9.2.6 of the WHATWG HTML Living
  Standard ("Server-sent events"). The model proves that a client reading
  the stream receives exactly one message per cycle, in order, provided no
  event's data text contains a line break.
- The cached enrichment record has a concrete codec in the layout that
  `json.dumps` writes, with a proved round trip.
- Some parts sit outside the model and are passed in as parameters:
  - the upstream HTTP endpoints;
  - the language-model chain;
  - `json.dumps`;
  - `str()` of non-strings;
  - `quote_plus`/`unquote_plus`;
  - the text of `json.loads`' errors.

Points where the code behaves other than one might expect, and which the model follows:
- The newer callback stores no session id. It returns the raw access token to
  the browser as a cookie, and the refresh token is dropped.
- `refresh_access_token` does not fail when the session has no refresh token.
  It posts a form that has no `refresh_token` field, because `requests` leaves out
  form fields whose value is `None`.
- `response.ok` and `raise_for_status` follow the `requests` library: only
  statuses 400 to 599 raise. Statuses of 600 and above count as `ok`.
- `utils.py` is textually identical to `src/utils.py` in every function
  modelled, so it is modelled once (`Utils`), and the cells below cite
  `src/utils.py`.

## Model

| member | source | states |
|---|---|---|
| KeyValueStore.Snapshot.Lookup | src/utils.py:44 | `GET` yields a value exactly when the key is present, and then the stored value |
| KeyValueStore.Snapshot.Put | src/spotify.py:104 | `SET key value EX ex` reads back its own write with its TTL and leaves every other key and TTL as it was |
| KeyValueStore.Snapshot.Remove | src/spotify.py:55 | `DEL key` removes the key and its TTL and leaves every other key as it was |
| KeyValueStore.Store.Get | src/utils.py:44 | reading the client returns the lookup in the current content and changes nothing |
| KeyValueStore.Store.Exists | src/spotify.py:51 | `EXISTS` is true exactly when the key is present |
| KeyValueStore.Store.Set | src/spotify.py:25 | the new content is the old one with the key put |
| KeyValueStore.Store.Delete | src/spotify.py:55 | the new content is the old one with the key removed |
| KeyValueStore.Store.constructor | src/main.py:28-34 | a client connected to the server sees whatever content the server already holds |
| Keys.KeyLayout | src/spotify.py:25 | each key kind (`spotify_state:`, `access_token:`, `refresh_token:`, `song_info:`) determines its identifier, and keys of different kinds never coincide |
| PyValues.Get | src/spotify.py:74 | `d.get(k)` finds a value exactly when `k` is a key, and that value is an entry of `d` under `k` |
| PyValues.Index | src/utils.py:40 | `v[k]` succeeds exactly on a dict holding `k`, with `d.get(k)`'s value; on a dict without the key it raises `KeyError(k)` |
| PyValues.Iterate | src/utils.py:13 | a `for` clause visits a list's items, a dict's keys in order, or a string's one-character strings in order, and raises on anything else |
| PyValues.Truthy | src/main.py:93 | the falsy values are exactly `None`, `False`, `0`, `0.0`, `""`, `[]` and `{}` |
| PyValues.Format | src/utils.py:77 | an f-string shows a string value as itself |
| PyValues.Decimal | src/utils.py:14 | `str(n)`, as in the item number of `join`'s TypeError, is a non-empty string of decimal digits, `"0"` exactly for 0 and without a leading zero otherwise |
| PyValues.Str | src/main.py:113-115 | `str(e)` of a KeyError is its key in single quotes; of every other exception modelled, its message |
| PyValues.DecimalReadsBack | src/utils.py:14 | the digits of `str(n)` spell `n` |
| PyValues.Split | src/spotify.py:44 | `s.split(c)` has at least one part |
| PyValues.SplitParts | src/spotify.py:44 | no part of `s.split(c)` contains `c` |
| PyValues.SplitJoins | src/spotify.py:44 | joining `s.split(c)` with `c` gives `s` back |
| PyValues.SplitJoin | src/spotify.py:35 | splitting a join of parts free of the separator gives the parts back |
| PyValues.FirstNonString | src/utils.py:14 | the position of the first non-string item, with every earlier item a string |
| PyValues.JoinItems | src/utils.py:14 | `", ".join(items)` succeeds exactly when every item is a string, and then it is the join of their texts |
| PyValues.Strings | src/utils.py:14 | one text per item, equal to the item's text where the item is a string |
| PyValues.Override | src/main.py:106 | the left operand's keys, in their order |
| PyValues.Union | src/main.py:106 | `a \| b` has every key of either operand; `b`'s value wins on a clash, and `a`'s value stays otherwise; `a`'s keys keep their positions; unique keys stay unique |
| Requests.IsOk | src/spotify.py:71 | `response.ok` is the negation of `raise_for_status` raising (statuses 400 to 599) |
| Requests.HttpErrorMessage | spotify.py:27 | the `HTTPError` text of `raise_for_status` starts with the three status digits, then ` Client Error: ` for a 4xx or ` Server Error: ` for a 5xx, and ends with the URL |
| Utils.SongId | src/utils.py:19-20 | `song_info["item"]["id"]`: the first subscript that raises decides the exception |
| Utils.SongName | src/utils.py:23-24 | `song_info["item"]["name"]`, the same way |
| Utils.AlbumName | src/utils.py:27-28 | `song_info["item"]["album"]["name"]`, three subscripts in turn |
| Utils.SongDuration | src/utils.py:31-32 | `song_info["item"]["duration_ms"]` |
| Utils.SongProgress | src/utils.py:35-36 | `song_info["progress_ms"]` |
| Utils.IsSongPlaying | src/utils.py:39-40 | `song_info["is_playing"]` |
| Utils.AccessorsReadFixedPaths | src/utils.py:19-40 | the six accessors read `item`, `progress_ms` and `is_playing` only: documents agreeing on those agree on every accessor |
| Utils.ArtistNames | src/utils.py:13 | the comprehension succeeds exactly when every artist entry has a `name`, and it keeps their number and order |
| Utils.GetArtists | src/utils.py:12-16 | `get_artists` succeeds exactly when the artist list is iterable and every entry's `name` is a string; it returns the names in order and their `", "`-join |
| Utils.PlayingByIndex | src/utils.py:39-40 | `is_song_playing` is the loop body's own `song_info["is_playing"]`; a playing document is a non-empty dict |
| Utils.SmartPoll | src/utils.py:53-70 | the delay is never below 5 s; it is 5 s when nothing plays or a read or subtraction raises; otherwise it is the larger of 5 s and a tenth of the remaining seconds |
| Utils.PlaybackStateFields | src/utils.py:31-40 | a document built from a flag, a duration and a progress holds them under `is_playing`, `progress_ms` and `item.duration_ms` |
| Utils.PlaybackStateReads | src/utils.py:59-63 | on such a document the delay arithmetic is `(duration - progress) / 10000` |
| Utils.SmartPollPlaying | src/utils.py:55-66 | while a track plays, the delay is exactly `max(5, (duration - progress) / 10000)` |
| Utils.SmartPollExamples | src/utils.py:62-64 | concrete delays: 20 s, 5 s, 30 s, and 5 s when the progress exceeds the duration |
| Utils.SmartPollIdle | src/utils.py:55-56 | a paused track polls every 5 s whatever its progress |
| Utils.SmartPollNonIncreasing | src/utils.py:62-64 | with the duration fixed, the delay never grows as the progress grows |
| Utils.GetAccessToken | src/utils.py:43-45 | reads `access_token:<sid>`, `None` exactly when absent |
| Utils.GetRefreshToken | src/utils.py:48-50 | reads `refresh_token:<sid>`, `None` exactly when absent |
| Utils.EntryLinesConcat | src/utils.py:76-77 | the entry lines of two dicts one after the other are those of their concatenation |
| Utils.EventSourceString | src/utils.py:73-80 | an empty dict gives `event: <type>` followed by three LFs |
| Utils.Dict2EventSourceString | src/utils.py:73-80 | the loop builds `event: <type>\n`, then one `key: value\n` line per entry in dict order, then `\n\n` |
| EventSource.Render | src/main.py:87-115 | every yielded text ends with a blank line; it starts with `data: ` exactly for a data event, and an error starts with `event: error` on its own line |
| EventSource.ExpectedAll | src/main.py:99-115 | one expected client message per yielded event, in order |
| EventSource.FirstColon | src/main.py:115 | the position of the first colon of a line, with none before it |
| EventSource.FeedAppend | src/main.py:84-118 | reading two texts one after the other is reading their concatenation |
| EventSource.FeedWithinLine | src/main.py:107 | characters other than LF dispatch nothing and only extend the current line |
| EventSource.FieldLine | src/main.py:107 | a `name: value` line sets the named field to the value |
| EventSource.DataFrame | src/main.py:107 | `data: x\n\n` reaches a client as one `message` event with data `x` |
| EventSource.ErrorFrame | src/main.py:115 | `event: error\ndata: x\n\n` reaches a client as one `error` event with data `x` |
| EventSource.RenderDispatches | src/main.py:87-115 | each text the stream yields reaches a client as exactly that one event and leaves the reader in its initial state |
| EventSource.WireDispatches | src/main.py:84-118 | the concatenated texts of the stream reach a client as the same events, one message each, in order |
| Spotify.Urlencode | src/spotify.py:35 | `urlencode`: `name=value` pairs joined by `&`; its meaning is `UrlencodeReadsBack` |
| Spotify.UrlencodeReadsBack | src/spotify.py:35 | a non-empty query encoded by `urlencode` reads back as the same pairs in the same order |
| Spotify.AuthorizationUrl | src/spotify.py:27-36 | the redirect `auth_using_spotify` returns; its meaning is `AuthorizationUrlReadsBack` |
| Spotify.AuthorizationUrlReadsBack | src/spotify.py:27-35 | the redirect is the authorize URL plus `?` and carries exactly `response_type=code`, `client_id`, `scope`, `redirect_uri` and `state`, in that order |
| Spotify.MintState | src/spotify.py:24-25 | minting adds only the state's key, holding the timestamp for 300 s |
| Spotify.AuthUsingSpotify | src/spotify.py:23-36 | the store gains the state and the URL is the authorization redirect for it |
| Spotify.ExchangeCode | src/spotify.py:47-80 | an unknown state raises `StateMismatchException` and changes nothing; a known state is deleted before the exchange; the store changes nowhere else; it succeeds exactly when the reply is ok and carries both tokens, and then returns them; a reply that is not ok raises `Failed to obtain access token`, and an ok reply missing a token raises `Access token or refresh token not found in response` |
| Spotify.GetAccessAndRefreshTokens | src/spotify.py:47-80 | the store state and the result are those of `ExchangeCode` |
| Spotify.SecondRedemptionFails | src/spotify.py:51-55 | whatever the first redemption did, a second one with the same state raises `StateMismatchException` and changes nothing |
| Spotify.MintedStateRedeemable | src/spotify.py:23-55 | a freshly minted state passes the check, and the exchange leaves the store as it was before the mint, minus the state's key (which the mint may have overwritten) |
| Spotify.RefreshAccess | src/spotify.py:83-105 | it succeeds exactly when the endpoint answers 200 with a non-empty token; then it overwrites `access_token:<sid>` with a 3600 s TTL; on failure the store is unchanged; the refresh token is never touched |
| Spotify.RefreshAccessToken | src/spotify.py:83-105 | the store state and the dict are those of `RefreshAccess` |
| Spotify.BodyJson | src/spotify.py:122 | `response.json()` yields the parsed body or raises a JSONDecodeError |
| Spotify.CurrentPlaying | src/spotify.py:108-125 | a network failure propagates; 204 gives the idle record; 401 with a token raises `ExpiredTokenException`; anything else returns the body's JSON |
| Spotify.ExpiredTokenOnlyWith401 | src/spotify.py:117-118 | the expired-token exception happens exactly for a 401 reply with a non-empty token |
| Spotify.LastUriField | src/spotify.py:44 | `uri.split(":")[-1]` is the colon-free suffix after the last colon, or the whole URI when it has none |
| Spotify.LastUriFieldOfUserUri | src/spotify.py:44 | for `spotify:user:<id>` it is the id |
| LegacySpotify.LegacyCurrentPlaying | spotify.py:8-30 | no token gives the missing-token record; 204 gives the idle record; 200 gives the body, or an error record when the body does not parse; a 4xx/5xx gives an error record with the `HTTPError` text, status and reason; any other status gives `None` |
| LegacySpotify.ErrorRecord | spotify.py:30 | the error record has the keys `error`, `status_code` and `message`, in that order, holding the exception text, the status and the reason |
| LegacySpotify.EmptyTokenIgnoresReply | spotify.py:9-10 | with an empty token the reply plays no part |
| LegacySpotify.RevisionsAgreeOnSuccess | spotify.py:20-24 | both revisions return the same value for 204 and for a parsed 200; on 401 the newer one raises and the older one returns a record |
| XrayRecord.FactsJson | xray.py:81 | the facts become a JSON list of the same strings, in order |
| XrayRecord.AsJson | xray.py:81 | the record is the dict with keys `meaning` then `facts`, holding the meaning and the facts as a list of strings |
| XrayRecord.Encode | xray.py:85 | the cached text starts `{"meaning": ` and ends with `}`; it reads back through `DecodeEncode` |
| XrayRecord.ReadEscapedChar | xray.py:85 | every character's JSON escape reads back as that character and stops right after it |
| XrayRecord.ReadQuotedInverts | xray.py:85 | a JSON string literal reads back as the string it encodes |
| XrayRecord.ReadListInverts | xray.py:85 | a JSON list of strings reads back as the same list |
| XrayRecord.Decode | xray.py:72-74 | `json.loads` of a cached text refuses any text that does not start with the layout's `{"meaning": `; its meaning is `DecodeEncode` |
| XrayRecord.DecodeEncode | xray.py:72-85 | the cached text of a record decodes to that record |
| XrayRecord.EncodeInjective | xray.py:85 | distinct records are cached as distinct texts |
| Xray.ReadTrack | xray.py:65-69 | the name, the artists and the id are read in that order; the first read that raises decides the exception; the cache key is `song_info:` plus the formatted id |
| Xray.CacheKeyIsTheId | xray.py:69 | two tracks share a cache entry exactly when their ids format alike |
| Xray.DecodeCached | xray.py:74 | `json.loads` of a cached text succeeds exactly when it is in the cached layout, and yields the decoded record |
| Xray.SongInfo | xray.py:60-86 | a failed read raises before the cache is touched; a hit returns the decoded entry without calling the chain and writes nothing; a miss (an absent or empty entry) calls the chain once and returns its record or its failure; a successful miss caches `Encode(record)` under the track's key for 86400 s; nothing else changes |
| Xray.GetSongInfo | xray.py:60-86 | the result and the new store state are those of `SongInfo` |
| Xray.HitIgnoresChain | xray.py:72-74 | a hit returns the decoded cached record and writes nothing, whatever the chain |
| Xray.MissThenHit | xray.py:70-85 | after a miss fills the cache, the same lookup is a hit returning the same record without calling the chain |
| Xray.SameIdSameRecord | xray.py:69-74 | on a hit, two tracks with the same id get the same record whatever their names and artists |
| App.Callback | src/main.py:44-60 | missing parameters give the error dict; otherwise the store changes as in `ExchangeCode`, and the callback redirects, setting the access token as a cookie, exactly when the exchange succeeds; otherwise it answers `{"error": str(e)}` |
| App.GetTokens | src/main.py:44-60 | the store state and the reply are those of `Callback` |
| App.CallbackSingleUse | src/main.py:44-60 | a successful callback changes only the state's key, removing it, and its replay is refused as a CSRF attempt |
| App.RefreshTokenRoute | src/main.py:63-69 | as written, the handler always answers a one-entry `error` dict and never an `access_token` |
| App.RefreshTokenRouteNeverRefreshes | src/main.py:63-69 | even when the session's refresh would succeed, the handler's answer differs from the refreshed dict |
| App.RefreshRoute | src/main.py:63-69 | the corrected handler answers `access_token` exactly when the refresh succeeds, and that token is then stored for the session; otherwise it answers `error` and the store is unchanged |
| App.Enrich | src/main.py:103-118 | a successful lookup yields the merged payload with one sleep of `smart_poll(song_info)`, at least 5 s; a lookup that raises yields the error text `str(e)` with one sleep, the delay and the store kept; the store changes at most by one cached record |
| App.AfterPoll | src/main.py:90-118 | one or two sleeps, all of the current delay; only a data event changes the delay; an exception from the poll is one error event with one sleep; a falsy snapshot is the `Empty song_info` error with two sleeps; a truthy snapshot where `song_info["is_playing"]` raises is that exception's text with one sleep; an idle snapshot is passed on with two sleeps; a playing one goes to `Enrich`; error events keep the delay; the store changes at most by one cached record |
| App.CycleSpec | src/main.py:84-118 | one pass of the loop: with no token, the missing-token error event, with one sleep at the current delay and the store unchanged; otherwise as `AfterPoll` on the poll's outcome |
| App.Payload | src/main.py:106 | `song_info \| song_xray`; its meaning is `PayloadMerges` |
| App.PayloadMerges | src/main.py:106 | `song_info \| song_xray` holds every key of both, and `meaning` and `facts` come from the record |
| App.PlayingEnriches | src/main.py:98-111 | a playing snapshot whose lookup succeeds yields the merged payload, and the delay becomes `smart_poll(song_info)` |
| App.PlayingCycle | src/main.py:91-118 | a playing track with a record yields the merged payload and sets the delay to `smart_poll`, at least 5 s, with one sleep of it |
| App.EmptySnapshotCycle | src/main.py:93-96 | a falsy snapshot yields the `Empty song_info` error text, keeps the delay and sleeps twice (the branch and `finally`) |
| App.IdleCycle | src/main.py:98-101 | an idle snapshot is yielded unchanged as data, and the pass sleeps twice at the current delay (the branch and `finally`) |
| App.NothingPlayingCycle | src/main.py:98-101 | a 204 reply yields the idle record and sleeps twice |
| App.EnrichmentFailureCycle | src/main.py:103-118 | a playing snapshot whose enrichment raises yields the error text `str(e)`, one sleep, the delay and the store kept |
| App.TransportFailureCycle | src/main.py:90-118 | a poll that fails in transport yields the failure's text with one sleep, the delay kept |
| App.NonDictSnapshotCycle | src/main.py:98-118 | a truthy snapshot that is not a dict raises TypeError on `song_info["is_playing"]`, and its text is the event, with one sleep |
| App.ExpiredTokenCycle | src/main.py:113-115 | a 401 with a token yields an error event with the exception's text and keeps the delay |
| App.MissingFlagCycle | src/main.py:98 | a non-empty document without `is_playing` yields the error text `'is_playing'` |
| App.Run | src/main.py:84-118 | one event per poll; between one and two sleeps per poll, all at least 5 s when the start is; with no token, only missing-token events at the initial delay |
| App.RunStep | src/main.py:84-118 | one more poll outcome appends one cycle to the run |
| App.Stream.constructor | src/main.py:79-83 | the stream starts with the cookie's token, a 5 s delay and nothing yielded |
| App.Stream.Cycle | src/main.py:84-118 | the pass appends `CycleSpec`'s event and sleeps, and takes its delay and store; the delay stays at least 5 s |
| App.Stream.Serve | src/main.py:84-118 | the passes over a sequence of poll outcomes leave exactly the events, sleeps, delay and store of `Run` |
| App.NoTokenStream | src/main.py:85-89 | without a token every pass yields the same error text, sleeps 5 s and leaves the store alone |
| App.StreamFraming | src/main.py:84-120 | a client reads the stream as one message per poll, in order, when no payload text contains a line break |
| LegacyApp.Authorize | main.py:34-49 | the store gains the state for 300 s and the redirect carries it |
| LegacyApp.HomeSpec | main.py:52-102 | missing parameters redirect to `/authorize`; an unknown state is a 400 and changes nothing; a known state is deleted; only the state's key changes; it answers both tokens exactly when the reply is ok and carries both; every 400 carries one of the three details, the exchange-failed one for a reply that is not ok and the missing-token one for an ok reply without both tokens |
| LegacyApp.Home | main.py:52-102 | the store state and the reply are those of `HomeSpec` |
| LegacyApp.HomeAgreesWithExchange | main.py:57-102 | given both parameters, `/home` changes the store as the newer exchange does and succeeds exactly when it does, with the same pair |
| LegacyApp.HomeSingleUse | main.py:61-68 | after a first callback, a second one with the same state is a 400 that changes nothing |
| LegacyApp.RefreshTokenHandler | main.py:105-129 | missing parameters redirect; otherwise it answers the new access token exactly when the endpoint answers 200 with a non-empty token, and the matching error text otherwise |
| LegacyApp.RefreshHandlerAgrees | main.py:105-129 | when the passed refresh token is the session's one, the handler answers what the newer `refresh_access_token` answers |
| LegacyApp.LegacyEvents | main.py:140-144 | one data event per reply, in order, each the value `get_current_playing` returned |
| LegacyApp.LegacyStream.constructor | main.py:138-139 | the stream starts with the query's token and nothing yielded |
| LegacyApp.LegacyStream.Cycle | main.py:141-150 | the pass yields the value `get_current_playing` returned and sleeps 5 s |
| LegacyApp.LegacyStream.Serve | main.py:140-150 | passes over a sequence of replies yield `LegacyEvents` and sleep 5 s after each |
| LegacyApp.LegacyStreamMessages | main.py:140-150 | a client sees only `message` events, one per poll, failures included |

## Left out

- The HTTP calls to Spotify are not performed. The reply of the currently-playing GET is an input, and
  the token endpoint is a function from the posted form to its reply. HTTP Basic client authentication
  (`base64` of the client id and secret) is not modelled.
- The randomness of `secrets.token_urlsafe` and the clock of `time.time()` are not modelled. The minted
  state and its timestamp text are parameters, and the `/livez` and `/` uptime handlers are left out.
- Redis expiry is recorded as a TTL per key and is not timed. The check-then-delete of a state is two
  commands, as in the source, so the model does not address concurrent redemptions.
- The language-model chain (LangChain with Gemini) is a parameter, and so are `json.dumps` of the
  snapshot, `str()` of non-string ids and values, `quote_plus`/`unquote_plus` and the text of
  `json.loads` errors.
- Spotify.ExchangeCode: the token POST always completes with a status and two optional string
  tokens. A transport exception, a `JSONDecodeError` from a body that is not JSON, an `AttributeError`
  from a body that is not a dict, and non-string token values are not modelled. The claim that every
  failure is a `StateMismatchException` or an `InternalServerError` holds only in that abstraction.
- Spotify.RefreshAccess: the same abstraction of the token POST. The exceptions listed above, which
  the source lets propagate, are not modelled.
- LegacyApp.HomeSpec: the same abstraction of the token POST. The exceptions listed above would give
  an HTTP 500 and are not modelled.
- LegacyApp.RefreshTokenHandler: the same abstraction of the token POST, with the same exceptions not
  modelled.
- Xray.DecodeCached: accepts only the layout `json.dumps` gives a record. Any other text under a
  `song_info:` key counts as a decode error, where `json.loads` would return whatever JSON it holds. The
  service itself writes only that layout.
- Utils.SmartPoll: uses exact reals for Python floats, so rounding is not modelled.
- Requests.HttpErrorMessage: the `HTTPError` text for a 4xx/5xx status assumes a reason text, as
  `requests` builds it when the reason decodes as text.
- App.Stream.Serve and LegacyApp.LegacyStream.Serve: cover any finite prefix of the `while True` loop.
  Asynchronous scheduling, client disconnects and `StreamingResponse` are not modelled.
- EventSource.Feed: reads LF line ends only. CR, CRLF, a byte-order mark and the `id` and `retry` fields
  are not modelled, because the stream never sends them.
- `FastAPI` routing, `RedirectResponse`, cookies and `HTTPException` are plain result values.
  `StaticFiles`, logging, `print` and `config.py` are left out.
- In the older `/xray` loop, the `except` branch with its `breakpoint()` (`main.py:146-148`) is left
  out. The older `get_current_playing` catches every exception itself, so that branch runs only for a
  transport failure. A transport failure is itself not modelled, because `response` is unbound in the
  handler at that point.
- `get_current_user_uri` (`src/spotify.py:39-44`): its HTTP call and the `['uri']` subscript are not
  modelled. Its last step, `split(":")[-1]`, is (`Spotify.LastUriField`).
- The `__main__` block of `xray.py`, which calls `get_song_info` with the wrong arguments, is not
  modelled.
- `exceptions.py` is not part of this model. Its exceptions appear as `PyValues.Exc` constructors whose
  `str()` is their message.

## Findings

| source | as written | input that shows it | evidently intended | confidence | as-written member | corrected member |
|---|---|---|---|---|---|---|
| src/main.py:63-69 | `refresh_access_token(refresh_token)` passes one argument to a function that takes the store and a session id, so Python raises TypeError before the call runs, and the handler answers `{"error": "refresh_access_token() missing 1 required positional argument: 'session_id'"}` | any request `GET /refresh_token?refresh_token=r`, even for a session whose refresh would succeed | call `refresh_access_token(redis_client, session_id)` and answer the dict it returns; the handler receives no session id, so which argument was meant is a guess | not executed; high for the TypeError, low for the intended call | App.RefreshTokenRouteNeverRefreshes | App.RefreshRoute |
