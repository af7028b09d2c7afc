/**
  `main.py`, the older revision of the web application: the `/authorize`
  redirect, the `/home` callback that hands both raw tokens to the client,
  the `/refresh_token` handler, and the `/xray` stream that polls at a fixed
  five-second interval.
*/
module LegacyApp {
  import opened PyValues
  import opened KeyValueStore
  import opened Requests
  import Keys
  import opened Spotify
  import opened LegacySpotify
  import opened EventSource

  // ---- /authorize ----

  /** `authorize()`: mint `state` (passed in, as is the text `stamp` of the time stored
      with it) and redirect to the accounts service. It is the same code as
      `auth_using_spotify`. */
  method Authorize(store: Store, cfg: Config, state: string, stamp: string, quote: string -> string)
    returns (url: string)
    modifies store
    ensures store.State() == MintState(old(store.State()), state, stamp)
    ensures url == AuthorizationUrl(cfg, state, quote)
  {
    url := AuthUsingSpotify(store, cfg, state, stamp, quote);
  }

  // ---- /home ----

  const UnknownStateDetail: string := "State not recognized. Possible CSRF attack detected"
  const ExchangeFailedDetail: string := "Failed to obtain access token"
  const MissingTokenDetail: string := "Access token not found in response"

  /** What `home` answers: a redirect to `/authorize`, an HTTP 400 with a detail, or the
      dict of both tokens. */
  datatype HomeReply =
    | RedirectAuthorize
    | BadRequest(detail: string)
    | Tokens(accessToken: string, refreshToken: string)

  /** `home(request)` on the store's content; `code` and `state` are the query
      parameters, `None` where absent. */
  function HomeSpec(s: Snapshot, cfg: Config, code: Option<string>, state: Option<string>,
                    endpoint: TokenEndpoint): (o: (Snapshot, HomeReply))
    ensures !Present(state) || !Present(code) ==> o == (s, RedirectAuthorize)
    ensures Present(state) && Present(code) && Keys.StateKey(state.value) !in s.values ==>
      o == (s, BadRequest("State not recognized. Possible CSRF attack detected"))
    ensures Present(state) && Present(code) && Keys.StateKey(state.value) in s.values ==>
      o.0 == s.Remove(Keys.StateKey(state.value))
    ensures o.0 != s ==> Present(state) && forall k :: k != Keys.StateKey(state.value) ==> o.0.Lookup(k) == s.Lookup(k)
    ensures o.1.Tokens? <==>
      Present(state) && Present(code) && Keys.StateKey(state.value) in s.values
      && var reply := endpoint(AuthorizationCodeGrant(code.value, cfg.redirectUri));
         IsOk(reply.status) && Present(reply.accessToken) && Present(reply.refreshToken)
    ensures o.1.Tokens? ==>
      var reply := endpoint(AuthorizationCodeGrant(code.value, cfg.redirectUri));
      o.1 == Tokens(reply.accessToken.value, reply.refreshToken.value)
    ensures o.1.BadRequest? ==>
      o.1.detail in {UnknownStateDetail, ExchangeFailedDetail, MissingTokenDetail}
    ensures Present(state) && Present(code) && Keys.StateKey(state.value) in s.values ==>
      var reply := endpoint(AuthorizationCodeGrant(code.value, cfg.redirectUri));
      && (!IsOk(reply.status) ==> o.1 == BadRequest(ExchangeFailedDetail))
      && (IsOk(reply.status) && (!Present(reply.accessToken) || !Present(reply.refreshToken)) ==>
            o.1 == BadRequest(MissingTokenDetail))
  {
    if !Present(state) || !Present(code) then (s, RedirectAuthorize)
    else
      var key := Keys.StateKey(state.value);
      if key !in s.values then (s, BadRequest(UnknownStateDetail))
      else
        var t := s.Remove(key);
        var reply := endpoint(AuthorizationCodeGrant(code.value, cfg.redirectUri));
        if !IsOk(reply.status) then (t, BadRequest(ExchangeFailedDetail))
        else if !Present(reply.accessToken) || !Present(reply.refreshToken) then
          (t, BadRequest(MissingTokenDetail))
        else (t, Tokens(reply.accessToken.value, reply.refreshToken.value))
  }

  /** `home`: check the parameters and the state, delete the state, then call the
      endpoint. */
  method Home(store: Store, cfg: Config, code: Option<string>, state: Option<string>, endpoint: TokenEndpoint)
    returns (r: HomeReply)
    modifies store
    ensures (store.State(), r) == HomeSpec(old(store.State()), cfg, code, state, endpoint)
  {
    if !Present(state) || !Present(code) {
      return RedirectAuthorize;
    }
    var key := Keys.StateKey(state.value);
    var known := store.Exists(key);
    if !known {
      return BadRequest(UnknownStateDetail);
    }
    store.Delete(key);
    var reply := endpoint(AuthorizationCodeGrant(code.value, cfg.redirectUri));
    if !IsOk(reply.status) {
      return BadRequest(ExchangeFailedDetail);
    }
    if !Present(reply.accessToken) || !Present(reply.refreshToken) {
      return BadRequest(MissingTokenDetail);
    }
    r := Tokens(reply.accessToken.value, reply.refreshToken.value);
  }

  /** Given both parameters, `home` does what the newer `get_access_and_refresh_tokens`
      does to the store, and succeeds exactly when it does, with the same pair; the
      revisions differ only in the wording of the failures. */
  lemma HomeAgreesWithExchange(s: Snapshot, cfg: Config, code: string, state: string, endpoint: TokenEndpoint)
    requires code != "" && state != ""
    ensures var home := HomeSpec(s, cfg, Some(code), Some(state), endpoint);
      var exchange := ExchangeCode(s, cfg, code, state, endpoint);
      && home.0 == exchange.0
      && (home.1.Tokens? <==> exchange.1.Ok?)
      && (home.1.Tokens? ==> (home.1.accessToken, home.1.refreshToken) == exchange.1.value)
  {
  }

  /** A state is single use in this revision as well: after any callback that got past
      the parameter check, a second one with the same state is refused and changes
      nothing. */
  lemma HomeSingleUse(s: Snapshot, cfg: Config, code1: string, code2: string, state: string,
                      first: TokenEndpoint, second: TokenEndpoint)
    requires code1 != "" && code2 != "" && state != ""
    ensures var t := HomeSpec(s, cfg, Some(code1), Some(state), first).0;
      HomeSpec(t, cfg, Some(code2), Some(state), second)
        == (t, BadRequest("State not recognized. Possible CSRF attack detected"))
  {
    var t := HomeSpec(s, cfg, Some(code1), Some(state), first).0;
    assert t.Lookup(Keys.StateKey(state)) == None;
  }

  // ---- /refresh_token ----

  /** What `refresh_token` answers: a redirect to `/authorize`, or a dict. */
  datatype RefreshReply = RedirectToAuthorize | Answer(outcome: RefreshOutcome)

  /** `refresh_token(refresh_token, access_token)`: the query parameters, `None` where
      absent, and the endpoint. No store is involved. */
  function RefreshTokenHandler(refresh: Option<string>, access: Option<string>, endpoint: TokenEndpoint)
    : (r: RefreshReply)
    ensures !Present(refresh) || !Present(access) <==> r == RedirectToAuthorize
    ensures Present(refresh) && Present(access) ==>
      var reply := endpoint(RefreshTokenGrant(refresh));
      && (r.outcome.Refreshed? <==> reply.status == 200 && Present(reply.accessToken))
      && (r.outcome.Refreshed? ==> r.outcome.AsDict() == JObj([("access_token", JStr(reply.accessToken.value))]))
      && (r.outcome.RefreshFailed? ==>
            r.outcome.message == (if reply.status != 200 then "Failed to refresh token"
                                  else "New access token not found in response"))
  {
    if !Present(refresh) || !Present(access) then RedirectToAuthorize
    else
      var reply := endpoint(RefreshTokenGrant(refresh));
      if reply.status != 200 then Answer(RefreshFailed("Failed to refresh token"))
      else if !Present(reply.accessToken) then Answer(RefreshFailed("New access token not found in response"))
      else Answer(Refreshed(reply.accessToken.value))
  }

  /** The handler answers what the newer `refresh_access_token` answers when the session's
      stored refresh token is the one passed in; unlike it, the handler stores nothing. */
  lemma RefreshHandlerAgrees(s: Snapshot, sessionId: string, refresh: string, access: string,
                             endpoint: TokenEndpoint)
    requires refresh != "" && access != ""
    requires s.Lookup(Keys.RefreshKey(sessionId)) == Some(refresh)
    ensures RefreshTokenHandler(Some(refresh), Some(access), endpoint)
         == Answer(RefreshAccess(s, sessionId, endpoint).1)
  {
  }

  // ---- /xray ----

  /** The fixed interval between polls, in seconds. */
  const PollInterval: real := 5.0

  /** The events of the stream for a sequence of replies to its polls. */
  function LegacyEvents(token: string, replies: seq<HttpReply>): (events: seq<Event>)
    ensures |events| == |replies|
    ensures forall i :: 0 <= i < |replies| ==> events[i] == DataEvent(LegacyCurrentPlaying(token, replies[i]))
  {
    seq(|replies|, i requires 0 <= i < |replies| => DataEvent(LegacyCurrentPlaying(token, replies[i])))
  }

  /** The `/xray` stream of the older revision: the token from the query, and what has
      been yielded and slept so far. */
  class LegacyStream {
    const token: string
    var events: seq<Event>
    var sleeps: seq<real>

    constructor (token: string)
      ensures this.token == token && events == [] && sleeps == []
    {
      this.token := token;
      events, sleeps := [], [];
    }

    /** One pass of the loop body: the record `get_current_playing` returns is always
        yielded as data, and the sleep is always five seconds. */
    method Cycle(reply: HttpReply)
      modifies this
      ensures events == old(events) + [DataEvent(LegacyCurrentPlaying(token, reply))]
      ensures sleeps == old(sleeps) + [PollInterval]
    {
      var songInfo := LegacyCurrentPlaying(token, reply);
      events := events + [DataEvent(songInfo)];
      sleeps := sleeps + [PollInterval];
    }

    /** Cycles for a sequence of replies: one event per reply, in order, each followed by
        a five-second sleep. */
    method Serve(replies: seq<HttpReply>)
      modifies this
      ensures events == old(events) + LegacyEvents(token, replies)
      ensures sleeps == old(sleeps) + seq(|replies|, _ => PollInterval)
    {
      ghost var events0, sleeps0 := events, sleeps;
      var i := 0;
      while i < |replies|
        invariant 0 <= i <= |replies|
        invariant events == events0 + LegacyEvents(token, replies[..i])
        invariant sleeps == sleeps0 + seq(i, _ => PollInterval)
      {
        assert LegacyEvents(token, replies[..i + 1]) == LegacyEvents(token, replies[..i]) + [DataEvent(LegacyCurrentPlaying(token, replies[i]))];
        Cycle(replies[i]);
        i := i + 1;
      }
      assert replies[..|replies|] == replies;
    }
  }

  /** A client reads the older stream as plain messages only, one per poll, whose data is
      the record `get_current_playing` returned, failures included. This model of the stream
      never sends an `error` event: the `except` branch that does, reached only through a
      transport failure, is not modelled. */
  lemma LegacyStreamMessages(token: string, replies: seq<HttpReply>, dumps: Json -> string)
    requires forall i :: 0 <= i < |replies| ==> NoLineBreak(dumps(LegacyCurrentPlaying(token, replies[i])))
    ensures var ms := Feed(Initial, Wire(LegacyEvents(token, replies), dumps));
      && ms.0 == Initial
      && |ms.1| == |replies|
      && forall i :: 0 <= i < |replies| ==>
           ms.1[i] == Message("message", dumps(LegacyCurrentPlaying(token, replies[i])))
  {
    var events := LegacyEvents(token, replies);
    forall i | 0 <= i < |events| ensures NoLineBreak(DataOf(events[i], dumps)) {
      assert DataOf(events[i], dumps) == dumps(LegacyCurrentPlaying(token, replies[i]));
    }
    WireDispatches(events, dumps);
  }
}
