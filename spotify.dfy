/**
  `src/spotify.py`: the OAuth 2.0 authorization-code flow against the
  Spotify accounts service (RFC 6749: authorization request in section
  4.1.1, `state` as CSRF defence in section 10.12, code exchange in section
  4.1.3, refresh in section 6), and the classification of the
  currently-playing reply.
*/
module Spotify {
  import opened PyValues
  import opened KeyValueStore
  import opened Requests
  import Keys
  import Utils
  import opened Playback

  const AuthUrl: string := "https://accounts.spotify.com/authorize"
  const Scope: string := "user-read-currently-playing"

  /** Seconds a minted `state` stays redeemable. */
  const StateTtl: nat := 300
  /** Seconds a refreshed access token is kept (`60 * 60`). */
  const AccessTokenTtl: nat := 60 * 60

  /** The registered client (`CLIENT_ID`, `CLIENT_SECRET`, `REDIRECT_URI`). */
  datatype Config = Config(clientId: string, clientSecret: string, redirectUri: string)

  // ---- the authorization request ----

  /** Query parameters, in the order they are written. */
  type Query = seq<(string, string)>

  /** `urlencode(q)`: `name=value` pairs joined by `&`, each side passed through `quote`,
      which stands for `quote_plus`. */
  function Urlencode(q: Query, quote: string -> string): string {
    Join(seq(|q|, i requires 0 <= i < |q| => quote(q[i].0) + "=" + quote(q[i].1)), "&")
  }

  /** How a server reads a query back: split at `&`, then at the first `=`, and unquote. */
  function ParseQuery(s: string, unquote: string -> string): Query {
    var pairs := Split(s, '&');
    seq(|pairs|, i requires 0 <= i < |pairs| =>
      var kv := Split(pairs[i], '=');
      (unquote(kv[0]), unquote(Join(kv[1..], "="))))
  }

  /** `quote` escapes the two delimiters and `unquote` undoes it (as `quote_plus` and
      `unquote_plus` do). */
  ghost predicate QuotingInverts(quote: string -> string, unquote: string -> string) {
    forall x :: '&' !in quote(x) && '=' !in quote(x) && unquote(quote(x)) == x
  }

  lemma NoDelimiterInPair(a: string, b: string)
    requires '&' !in a && '&' !in b && '=' !in a && '=' !in b
    ensures '&' !in a + "=" + b
    ensures Split(a + "=" + b, '=') == [a, b]
  {
    var p := a + "=" + b;
    assert forall i :: 0 <= i < |p| ==> p[i] == (if i < |a| then a[i] else if i == |a| then '=' else b[i - |a| - 1]);
    assert a + "=" + b == a + ['='] + b;
    SplitAppend(a, '=', b);
    SplitNoSeparator(a, '=');
  }

  /** A non-empty query survives encoding: the server reads back every pair, in order. */
  lemma UrlencodeReadsBack(q: Query, quote: string -> string, unquote: string -> string)
    requires |q| >= 1 && QuotingInverts(quote, unquote)
    ensures ParseQuery(Urlencode(q, quote), unquote) == q
  {
    var parts := seq(|q|, i requires 0 <= i < |q| => quote(q[i].0) + "=" + quote(q[i].1));
    forall i | 0 <= i < |q|
      ensures '&' !in parts[i] && Split(parts[i], '=') == [quote(q[i].0), quote(q[i].1)]
    {
      NoDelimiterInPair(quote(q[i].0), quote(q[i].1));
    }
    SplitJoin(parts, '&');
    var r := ParseQuery(Urlencode(q, quote), unquote);
    forall i | 0 <= i < |q| ensures r[i] == q[i] {
      assert Split(parts[i], '=')[1..] == [quote(q[i].1)];
    }
  }

  /** The parameters of the authorization request of section 4.1.1 of RFC 6749. */
  function AuthorizationQuery(cfg: Config, state: string): Query {
    [("response_type", "code"), ("client_id", cfg.clientId), ("scope", Scope),
     ("redirect_uri", cfg.redirectUri), ("state", state)]
  }

  /** The redirect `auth_using_spotify` returns. */
  function AuthorizationUrl(cfg: Config, state: string, quote: string -> string): string {
    AuthUrl + "?" + Urlencode(AuthorizationQuery(cfg, state), quote)
  }

  /** The accounts service, reading the redirect, receives exactly the five parameters
      in this order, with the minted state last. */
  lemma AuthorizationUrlReadsBack(cfg: Config, state: string, quote: string -> string, unquote: string -> string)
    requires QuotingInverts(quote, unquote)
    ensures var url := AuthorizationUrl(cfg, state, quote);
      && url[..|AuthUrl| + 1] == AuthUrl + "?"
      && ParseQuery(url[|AuthUrl| + 1..], unquote)
         == [("response_type", "code"), ("client_id", cfg.clientId),
             ("scope", "user-read-currently-playing"), ("redirect_uri", cfg.redirectUri),
             ("state", state)]
  {
    var url := AuthorizationUrl(cfg, state, quote);
    assert url[|AuthUrl| + 1..] == Urlencode(AuthorizationQuery(cfg, state), quote);
    UrlencodeReadsBack(AuthorizationQuery(cfg, state), quote, unquote);
  }

  /** The store after minting `state`: one new key, the state's, holding the timestamp
      for 300 seconds; every other key as before. */
  function MintState(s: Snapshot, state: string, stamp: string): (t: Snapshot)
    ensures t.Lookup(Keys.StateKey(state)) == Some(stamp)
    ensures Keys.StateKey(state) in t.ttls && t.ttls[Keys.StateKey(state)] == 300
    ensures forall k :: k != Keys.StateKey(state) ==> t.Lookup(k) == s.Lookup(k)
    ensures t.ttls.Keys == s.ttls.Keys + {Keys.StateKey(state)}
  {
    s.Put(Keys.StateKey(state), stamp, StateTtl)
  }

  /** `auth_using_spotify`: `state` is the random token and `stamp` the text of the time
      stored with it, both passed in. */
  method AuthUsingSpotify(store: Store, cfg: Config, state: string, stamp: string, quote: string -> string)
    returns (url: string)
    modifies store
    ensures store.State() == MintState(old(store.State()), state, stamp)
    ensures url == AuthorizationUrl(cfg, state, quote)
  {
    store.Set(Keys.StateKey(state), stamp, StateTtl);
    url := AuthUrl + "?" + Urlencode(AuthorizationQuery(cfg, state), quote);
  }

  // ---- the token endpoint ----

  /** The form a call to the token endpoint posts (client authentication is not modelled). */
  datatype Grant =
    | AuthorizationCodeGrant(code: string, redirectUri: string)
    | RefreshTokenGrant(refreshToken: Option<string>)

  /** What the core reads from the token endpoint's reply: the status and the two fields
      of its JSON body, `None` where absent. */
  datatype TokenReply = TokenReply(status: int, accessToken: Option<string>, refreshToken: Option<string>)

  /** The token endpoint, as a function from the posted form to its reply. */
  type TokenEndpoint = Grant -> TokenReply

  const StateMismatchMessage: string := "State parameter mismatch. Possible CSRF attack."

  /** `get_access_and_refresh_tokens(code, state)` on the store's content: the new content,
      and either the token pair or the exception raised. */
  function ExchangeCode(s: Snapshot, cfg: Config, code: string, state: string, endpoint: TokenEndpoint)
    : (o: (Snapshot, Result<(string, string), Exc>))
    ensures Keys.StateKey(state) !in s.values ==> o == (s, Err(StateMismatch(StateMismatchMessage)))
    ensures Keys.StateKey(state) in s.values ==> o.0 == s.Remove(Keys.StateKey(state))
    ensures forall k :: k != Keys.StateKey(state) ==> o.0.Lookup(k) == s.Lookup(k)
    ensures o.0.Lookup(Keys.StateKey(state)) == None
    ensures var reply := endpoint(AuthorizationCodeGrant(code, cfg.redirectUri));
      && (o.1.Ok? <==>
            Keys.StateKey(state) in s.values && IsOk(reply.status)
            && Present(reply.accessToken) && Present(reply.refreshToken))
      && (o.1.Ok? ==> o.1.value == (reply.accessToken.value, reply.refreshToken.value))
    ensures o.1.Err? ==> o.1.error.StateMismatch? || o.1.error.InternalServer?
    ensures var reply := endpoint(AuthorizationCodeGrant(code, cfg.redirectUri));
      Keys.StateKey(state) in s.values && !IsOk(reply.status) ==>
        o.1 == Err(InternalServer("Failed to obtain access token"))
    ensures var reply := endpoint(AuthorizationCodeGrant(code, cfg.redirectUri));
      Keys.StateKey(state) in s.values && IsOk(reply.status)
      && (!Present(reply.accessToken) || !Present(reply.refreshToken)) ==>
        o.1 == Err(InternalServer("Access token or refresh token not found in response"))
  {
    var key := Keys.StateKey(state);
    if key !in s.values then (s, Err(StateMismatch(StateMismatchMessage)))
    else
      var t := s.Remove(key);
      var reply := endpoint(AuthorizationCodeGrant(code, cfg.redirectUri));
      if !IsOk(reply.status) then (t, Err(InternalServer("Failed to obtain access token")))
      else if !Present(reply.accessToken) || !Present(reply.refreshToken) then
        (t, Err(InternalServer("Access token or refresh token not found in response")))
      else (t, Ok((reply.accessToken.value, reply.refreshToken.value)))
  }

  /** `get_access_and_refresh_tokens`: check the state, delete it, then call the endpoint. */
  method GetAccessAndRefreshTokens(store: Store, cfg: Config, code: string, state: string, endpoint: TokenEndpoint)
    returns (r: Result<(string, string), Exc>)
    modifies store
    ensures (store.State(), r) == ExchangeCode(old(store.State()), cfg, code, state, endpoint)
  {
    var known := store.Exists(Keys.StateKey(state));
    if !known {
      return Err(StateMismatch(StateMismatchMessage));
    }
    store.Delete(Keys.StateKey(state));
    var reply := endpoint(AuthorizationCodeGrant(code, cfg.redirectUri));
    if !IsOk(reply.status) {
      return Err(InternalServer("Failed to obtain access token"));
    }
    if !Present(reply.accessToken) || !Present(reply.refreshToken) {
      return Err(InternalServer("Access token or refresh token not found in response"));
    }
    r := Ok((reply.accessToken.value, reply.refreshToken.value));
  }

  /** A state is single use: whatever the first exchange did, a second one with the same
      state raises StateMismatchException and changes nothing. */
  lemma SecondRedemptionFails(s: Snapshot, cfg: Config, code1: string, code2: string, state: string,
                              first: TokenEndpoint, second: TokenEndpoint)
    ensures var t := ExchangeCode(s, cfg, code1, state, first).0;
      ExchangeCode(t, cfg, code2, state, second) == (t, Err(StateMismatch("State parameter mismatch. Possible CSRF attack.")))
  {
    var t := ExchangeCode(s, cfg, code1, state, first).0;
    assert t.Lookup(Keys.StateKey(state)) == None;
  }

  /** A freshly minted state is accepted once: the exchange then depends only on the
      endpoint's reply, and leaves the store as it was before minting, minus the state. */
  lemma MintedStateRedeemable(s: Snapshot, cfg: Config, code: string, state: string, stamp: string,
                              endpoint: TokenEndpoint)
    ensures var o := ExchangeCode(MintState(s, state, stamp), cfg, code, state, endpoint);
      && o.0 == s.Remove(Keys.StateKey(state))
      && !(o.1.Err? && o.1.error.StateMismatch?)
  {
    var key := Keys.StateKey(state);
    var m := MintState(s, state, stamp);
    assert key in m.values;
    assert m.Remove(key).values == s.Remove(key).values;
    assert m.Remove(key).ttls == s.Remove(key).ttls;
  }

  // ---- refreshing the access token ----

  /** The dict `refresh_access_token` returns. */
  datatype RefreshOutcome = RefreshFailed(message: string) | Refreshed(accessToken: string) {
    function AsDict(): Json {
      match this
      case RefreshFailed(m) => JObj([("error", JStr(m))])
      case Refreshed(t) => JObj([("access_token", JStr(t))])
    }
  }

  /** `refresh_access_token(sid)`, on the store's content. */
  function RefreshAccess(s: Snapshot, sessionId: string, endpoint: TokenEndpoint): (o: (Snapshot, RefreshOutcome))
    ensures var reply := endpoint(RefreshTokenGrant(s.Lookup(Keys.RefreshKey(sessionId))));
      && (o.1.Refreshed? <==> reply.status == 200 && Present(reply.accessToken))
      && (o.1.Refreshed? ==> o.1.accessToken == reply.accessToken.value)
    ensures o.1.RefreshFailed? ==> o.0 == s
    ensures o.1.Refreshed? ==> o.0 == s.Put(Keys.AccessKey(sessionId), o.1.accessToken, 3600)
    ensures forall k :: k != Keys.AccessKey(sessionId) ==> o.0.Lookup(k) == s.Lookup(k)
    ensures o.0.Lookup(Keys.RefreshKey(sessionId)) == s.Lookup(Keys.RefreshKey(sessionId))
  {
    Keys.KeyLayout(sessionId, sessionId);
    var reply := endpoint(RefreshTokenGrant(s.Lookup(Keys.RefreshKey(sessionId))));
    if reply.status != 200 then (s, RefreshFailed("Failed to refresh token"))
    else if !Present(reply.accessToken) then (s, RefreshFailed("New access token not found in response"))
    else (s.Put(Keys.AccessKey(sessionId), reply.accessToken.value, AccessTokenTtl), Refreshed(reply.accessToken.value))
  }

  /** `refresh_access_token`: read the refresh token, post it, and on success overwrite
      the session's access token. */
  method RefreshAccessToken(store: Store, sessionId: string, endpoint: TokenEndpoint) returns (o: RefreshOutcome)
    modifies store
    ensures (store.State(), o) == RefreshAccess(old(store.State()), sessionId, endpoint)
  {
    var refreshToken := Utils.GetRefreshToken(store, sessionId);
    var reply := endpoint(RefreshTokenGrant(refreshToken));
    if reply.status != 200 {
      return RefreshFailed("Failed to refresh token");
    }
    if !Present(reply.accessToken) {
      return RefreshFailed("New access token not found in response");
    }
    store.Set(Keys.AccessKey(sessionId), reply.accessToken.value, AccessTokenTtl);
    o := Refreshed(reply.accessToken.value);
  }

  // ---- the currently-playing reply ----

  /** `response.json()`: the parsed body, or the JSONDecodeError it raises. */
  function BodyJson(b: Body): (r: Result<Json, Exc>)
    ensures r.Ok? <==> b.Parsed?
    ensures r.Ok? ==> r.value == b.value
  {
    match b
    case Parsed(v) => Ok(v)
    case Unparsable(m) => Err(JsonDecodeError(m))
  }

  /** `get_current_playing(token)` for the outcome of its GET: the value returned or the
      exception raised. */
  function CurrentPlaying(token: string, poll: Poll): (r: Result<Json, Exc>)
    ensures poll.TransportFailure? ==> r == Err(RequestFailure(poll.message))
    ensures poll.Answered? && poll.reply.status == 204 ==> r == Ok(IdleRecord)
    ensures poll.Answered? && poll.reply.status == 401 && token != "" ==>
      r == Err(ExpiredToken("Access token is invalid or expired"))
    ensures poll.Answered? && poll.reply.status != 204 && !(poll.reply.status == 401 && token != "") ==>
      r == BodyJson(poll.reply.body)
  {
    match poll
    case TransportFailure(m) => Err(RequestFailure(m))
    case Answered(reply) =>
      if reply.status == 204 then Ok(IdleRecord)
      else if token != "" && reply.status == 401 then Err(ExpiredToken("Access token is invalid or expired"))
      else if reply.status == 200 then BodyJson(reply.body)
      else BodyJson(reply.body)
  }

  /** An expired-token exception needs a non-empty token and status 401; with an empty
      token a 401 reply's body is handed back like any other. */
  lemma ExpiredTokenOnlyWith401(token: string, poll: Poll)
    ensures var r := CurrentPlaying(token, poll);
      (r.Err? && r.error.ExpiredToken?) <==> (poll.Answered? && poll.reply.status == 401 && token != "")
  {
  }

  // ---- the user id of a Spotify URI ----

  /** `uri.split(":")[-1]`: the part of `uri` after its last colon (all of it when there
      is none). */
  function LastUriField(uri: string): (r: string)
    ensures ':' !in r
    ensures |r| <= |uri| && uri[|uri| - |r|..] == r
    ensures |r| < |uri| ==> uri[|uri| - |r| - 1] == ':'
  {
    var parts := Split(uri, ':');
    SplitParts(uri, ':');
    SplitJoins(uri, ':');
    var last := parts[|parts| - 1];
    if |parts| == 1 then last
    else
      var front := Join(parts[..|parts| - 1], ":");
      assert parts[..|parts| - 1] + [last] == parts;
      JoinSnoc(parts[..|parts| - 1], ":", last);
      assert uri == front + ":" + last;
      assert uri[|uri| - |last|..] == last;
      last
  }

  /** For a user URI `spotify:user:<id>`, the last field is the id. */
  lemma LastUriFieldOfUserUri(id: string)
    requires ':' !in id
    ensures LastUriField("spotify:user:" + id) == id
  {
    assert "spotify:user:" + id == "spotify:user" + [':'] + id;
    SplitAppend("spotify:user", ':', id);
  }
}
