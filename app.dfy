/**
  `src/main.py`: the OAuth callback and the `/xray` event stream. One pass of
  the stream's `while True` loop is a cycle: it polls the currently-playing
  endpoint, enriches a playing track, yields exactly one event and sleeps.
  The stream's state is the poll delay carried from cycle to cycle; the
  yielded events and the sleeps are recorded in order.
*/
module App {
  import opened PyValues
  import opened KeyValueStore
  import opened Requests
  import opened Playback
  import opened EventSource
  import opened XrayRecord
  import Keys
  import Utils
  import Spotify
  import Xray

  // ---- the OAuth callback ----

  /** What `get_tokens` returns: a redirect to `/` setting the `access_token` cookie, or
      the dict `{"error": str(e)}`. */
  datatype CallbackReply = RedirectHome(accessTokenCookie: string) | ErrorBody(message: string)

  /** `get_tokens(request)`, on the store's content, for the `code` and `state` query
      parameters (`None` when absent). */
  function Callback(s: Snapshot, cfg: Spotify.Config, code: Option<string>, state: Option<string>,
                    endpoint: Spotify.TokenEndpoint): (o: (Snapshot, CallbackReply))
    ensures !Present(state) || !Present(code) ==>
      o == (s, ErrorBody("Missing state or code parameter in request"))
    ensures Present(state) && Present(code) ==>
      var x := Spotify.ExchangeCode(s, cfg, code.value, state.value, endpoint);
      && o.0 == x.0
      && (o.1.RedirectHome? <==> x.1.Ok?)
      && (x.1.Ok? ==> o.1.accessTokenCookie == x.1.value.0)
      && (x.1.Err? ==> o.1 == ErrorBody(Str(x.1.error)))
  {
    if !Present(state) || !Present(code) then (s, ErrorBody("Missing state or code parameter in request"))
    else
      var x := Spotify.ExchangeCode(s, cfg, code.value, state.value, endpoint);
      match x.1
      case Err(e) => (x.0, ErrorBody(Str(e)))
      case Ok((access, _)) => (x.0, RedirectHome(access))
  }

  /** `get_tokens`. */
  method GetTokens(store: Store, cfg: Spotify.Config, code: Option<string>, state: Option<string>,
                   endpoint: Spotify.TokenEndpoint) returns (reply: CallbackReply)
    modifies store
    ensures (store.State(), reply) == Callback(old(store.State()), cfg, code, state, endpoint)
  {
    if !Present(state) || !Present(code) {
      return ErrorBody("Missing state or code parameter in request");
    }
    var r := Spotify.GetAccessAndRefreshTokens(store, cfg, code.value, state.value, endpoint);
    match r
    case Err(e) => reply := ErrorBody(Str(e));
    case Ok((access, _)) => reply := RedirectHome(access);
  }

  /** The callback stores no token: it only ever removes the state it redeems, and a
      replay of a successful callback is refused as a CSRF attempt. */
  lemma CallbackSingleUse(s: Snapshot, cfg: Spotify.Config, code: Option<string>, state: Option<string>,
                          endpoint: Spotify.TokenEndpoint, replay: Spotify.TokenEndpoint)
    requires Callback(s, cfg, code, state, endpoint).1.RedirectHome?
    ensures var t := Callback(s, cfg, code, state, endpoint).0;
      && (forall k :: k != Keys.StateKey(state.value) ==> t.Lookup(k) == s.Lookup(k))
      && t.Lookup(Keys.StateKey(state.value)) == None
      && Callback(t, cfg, code, state, replay)
         == (t, ErrorBody("State parameter mismatch. Possible CSRF attack."))
  {
    Spotify.SecondRedemptionFails(s, cfg, code.value, code.value, state.value, endpoint, replay);
  }

  // ---- /refresh_token ----

  /** The text of the TypeError Python raises when `refresh_access_token`, which takes the
      store and a session id, is called with one argument. */
  const MissingSessionIdMessage: string :=
    "refresh_access_token() missing 1 required positional argument: 'session_id'"

  /** `refresh_token(refresh_token)` as written: `refresh_access_token(refresh_token)` raises
      before its body runs, and the handler answers `{"error": str(e)}`. */
  function RefreshTokenRoute(refreshToken: string): (r: Json)
    ensures r.JObj? && PyValues.Keys(r.fields) == ["error"]
    ensures Get(r.fields, "access_token") == None
  {
    JObj([("error", JStr(MissingSessionIdMessage))])
  }

  /** Even for a session whose refresh would succeed, the handler as written answers an
      error and never the new access token. */
  lemma RefreshTokenRouteNeverRefreshes(s: Snapshot, refreshToken: string, sessionId: string,
                                        endpoint: Spotify.TokenEndpoint)
    requires Spotify.RefreshAccess(s, sessionId, endpoint).1.Refreshed?
    ensures RefreshTokenRoute(refreshToken) != Spotify.RefreshAccess(s, sessionId, endpoint).1.AsDict()
  {
    var d := Spotify.RefreshAccess(s, sessionId, endpoint).1.AsDict();
    assert PyValues.Keys(d.fields) == ["access_token"];
  }

  /** The handler as evidently intended: `refresh_access_token(redis_client, session_id)`,
      answering the dict it returns. */
  function RefreshRoute(s: Snapshot, sessionId: string, endpoint: Spotify.TokenEndpoint): (o: (Snapshot, Json))
    ensures o.1.JObj? && |o.1.fields| == 1
    ensures var reply := endpoint(Spotify.RefreshTokenGrant(s.Lookup(Keys.RefreshKey(sessionId))));
      Get(o.1.fields, "access_token").Some? <==> reply.status == 200 && Present(reply.accessToken)
    ensures Get(o.1.fields, "access_token").Some? ==>
      Get(o.1.fields, "access_token").value.JStr?
      && o.0.Lookup(Keys.AccessKey(sessionId)) == Some(Get(o.1.fields, "access_token").value.s)
    ensures Get(o.1.fields, "access_token").None? ==> o.0 == s && Get(o.1.fields, "error").Some?
  {
    var r := Spotify.RefreshAccess(s, sessionId, endpoint);
    (r.0, r.1.AsDict())
  }

  // ---- one cycle of the event stream ----

  const EmptySongInfoText: string := "A Server Side Error Occured: Empty song_info"

  /** The effect of one cycle: the event yielded, the sleeps in order, the poll delay
      afterwards and the store's new content. */
  datatype CycleOutcome = CycleOutcome(event: Event, sleeps: seq<real>, delay: real, store: Snapshot)

  /** The payload of a playing snapshot: `song_info | song_xray`. */
  function Payload(info: Fields, x: SongXray): Json {
    JObj(Union(info, AsJson(x).fields))
  }

  /** The enrichment of a playing snapshot: on success the merged payload is yielded and
      the delay becomes `smart_poll(song_info)`; a failed lookup is an error event. */
  function Enrich(info: Json, delay: real, s: Snapshot, chain: Xray.Chain, strOf: Json -> string,
                  loadsError: string -> string): (o: CycleOutcome)
    requires info.JObj?
    ensures |o.sleeps| == 1 && o.sleeps[0] == o.delay
    ensures o.delay != delay ==> o.event.DataEvent? && o.delay >= 5.0
    ensures o.event.ErrorText? ==> o.delay == delay
    ensures !o.event.ErrorEvent?
    ensures var l := Xray.SongInfo(s, info, chain, strOf, loadsError);
      l.result.Err? ==> o == CycleOutcome(ErrorText(Str(l.result.error)), [delay], delay, s)
    ensures var l := Xray.SongInfo(s, info, chain, strOf, loadsError);
      l.result.Ok? ==>
        o == CycleOutcome(DataEvent(Payload(info.fields, l.result.value)),
                          [Utils.SmartPoll(info)], Utils.SmartPoll(info), l.store)
    ensures Xray.CacheFill(s, o.store)
  {
    var lookup := Xray.SongInfo(s, info, chain, strOf, loadsError);
    match lookup.result
    case Err(e) => CycleOutcome(ErrorText(Str(e)), [delay], delay, lookup.store)
    case Ok(x) =>
      var next := Utils.SmartPoll(info);
      CycleOutcome(DataEvent(Payload(info.fields, x)), [next], next, lookup.store)
  }

  /** The branches of the loop body once `get_current_playing` has returned or raised. */
  function AfterPoll(songInfo: Result<Json, Exc>, delay: real, s: Snapshot, chain: Xray.Chain,
                     strOf: Json -> string, loadsError: string -> string): (o: CycleOutcome)
    ensures |o.sleeps| == 1 || |o.sleeps| == 2
    ensures forall i :: 0 <= i < |o.sleeps| ==> o.sleeps[i] == o.delay
    ensures o.delay != delay ==> o.event.DataEvent? && |o.sleeps| == 1 && o.delay >= 5.0
    ensures o.event.ErrorText? ==>
      o.delay == delay && (o.sleeps == [delay] || o.event == ErrorText(EmptySongInfoText))
    ensures !o.event.ErrorEvent?
    ensures songInfo.Err? ==> o == CycleOutcome(ErrorText(Str(songInfo.error)), [delay], delay, s)
    ensures songInfo.Ok? && !Truthy(songInfo.value) ==>
      o == CycleOutcome(ErrorText(EmptySongInfoText), [delay, delay], delay, s)
    ensures songInfo.Ok? && Truthy(songInfo.value) && Index(songInfo.value, "is_playing").Err? ==>
      o == CycleOutcome(ErrorText(Str(Index(songInfo.value, "is_playing").error)), [delay], delay, s)
    ensures songInfo.Ok? && Truthy(songInfo.value) && Index(songInfo.value, "is_playing").Ok?
            && !Truthy(Index(songInfo.value, "is_playing").value) ==>
      o == CycleOutcome(DataEvent(songInfo.value), [delay, delay], delay, s)
    ensures songInfo.Ok? && Truthy(songInfo.value) && Index(songInfo.value, "is_playing").Ok?
            && Truthy(Index(songInfo.value, "is_playing").value) ==>
      songInfo.value.JObj? && o == Enrich(songInfo.value, delay, s, chain, strOf, loadsError)
    ensures Xray.CacheFill(s, o.store)
  {
    match songInfo
    case Err(e) => CycleOutcome(ErrorText(Str(e)), [delay], delay, s)
    case Ok(info) =>
      if !Truthy(info) then CycleOutcome(ErrorText(EmptySongInfoText), [delay, delay], delay, s)
      else
        match Index(info, "is_playing")
        case Err(e) => CycleOutcome(ErrorText(Str(e)), [delay], delay, s)
        case Ok(flag) =>
          if !Truthy(flag) then CycleOutcome(DataEvent(info), [delay, delay], delay, s)
          else Enrich(info, delay, s, chain, strOf, loadsError)
  }

  /** One pass of the loop in `event_stream`, from the cookie's token, the delay before the
      pass and the outcome of the poll. */
  function CycleSpec(token: Option<string>, delay: real, poll: Poll, s: Snapshot, chain: Xray.Chain,
                     strOf: Json -> string, loadsError: string -> string): (o: CycleOutcome)
    ensures |o.sleeps| == 1 || |o.sleeps| == 2
    ensures forall i :: 0 <= i < |o.sleeps| ==> o.sleeps[i] == o.delay
    ensures o.delay != delay ==> o.event.DataEvent? && |o.sleeps| == 1 && o.delay >= 5.0
    ensures !Present(token) ==> o == CycleOutcome(ErrorEvent(MissingTokenRecord), [delay], delay, s)
    ensures Present(token) ==>
      o == AfterPoll(Spotify.CurrentPlaying(token.value, poll), delay, s, chain, strOf, loadsError)
    ensures o.event.ErrorEvent? || o.event.ErrorText? ==>
      o.delay == delay && (o.sleeps == [delay] || o.event == ErrorText(EmptySongInfoText))
    ensures Xray.CacheFill(s, o.store)
  {
    if !Present(token) then CycleOutcome(ErrorEvent(MissingTokenRecord), [delay], delay, s)
    else AfterPoll(Spotify.CurrentPlaying(token.value, poll), delay, s, chain, strOf, loadsError)
  }

  /** `song_info | song_xray` holds every key of both, and the record's value wins on a
      clash. */
  lemma PayloadMerges(info: Fields, x: SongXray)
    ensures var p := Payload(info, x);
      && p.JObj?
      && (forall k :: k in PyValues.Keys(p.fields) <==> k in PyValues.Keys(info) || k == "meaning" || k == "facts")
      && Get(p.fields, "meaning") == Some(JStr(x.meaning))
      && Get(p.fields, "facts") == Some(FactsJson(x.facts))
      && (forall k :: k in PyValues.Keys(info) && k != "meaning" && k != "facts" ==> Get(p.fields, k) == Get(info, k))
  {
    var xs := AsJson(x).fields;
    assert PyValues.Keys(xs) == ["meaning", "facts"];
    assert forall k :: k in PyValues.Keys(xs) <==> k == "meaning" || k == "facts";
  }

  /** After a playing snapshot comes the enrichment, and a found record is merged into
      the payload. */
  lemma PlayingEnriches(info: Json, delay: real, s: Snapshot, chain: Xray.Chain,
                        strOf: Json -> string, loadsError: string -> string)
    requires info.JObj? && Truthy(info)
    requires Index(info, "is_playing").Ok? && Truthy(Index(info, "is_playing").value)
    requires Xray.SongInfo(s, info, chain, strOf, loadsError).result.Ok?
    ensures var lookup := Xray.SongInfo(s, info, chain, strOf, loadsError);
      var next := Utils.SmartPoll(info);
      AfterPoll(Ok(info), delay, s, chain, strOf, loadsError)
        == CycleOutcome(DataEvent(Payload(info.fields, lookup.result.value)), [next], next, lookup.store)
  {
  }

  /** A playing snapshot with an enrichment record: the payload holds every key of the
      snapshot and of the record, the record's value wins on a clash, the delay becomes
      `smart_poll(song_info)` and exactly one sleep of that length follows. */
  lemma PlayingCycle(token: string, delay: real, poll: Poll, s: Snapshot, chain: Xray.Chain,
                     strOf: Json -> string, loadsError: string -> string)
    requires token != ""
    requires Spotify.CurrentPlaying(token, poll).Ok?
    requires Utils.Playing(Spotify.CurrentPlaying(token, poll).value)
    requires Xray.SongInfo(s, Spotify.CurrentPlaying(token, poll).value, chain, strOf, loadsError).result.Ok?
    ensures var info := Spotify.CurrentPlaying(token, poll).value;
      var x := Xray.SongInfo(s, info, chain, strOf, loadsError).result.value;
      var o := CycleSpec(Some(token), delay, poll, s, chain, strOf, loadsError);
      && info.JObj?
      && o.event.DataEvent? && o.event.payload.JObj?
      && (forall k :: k in PyValues.Keys(o.event.payload.fields) <==>
            k in PyValues.Keys(info.fields) || k == "meaning" || k == "facts")
      && Get(o.event.payload.fields, "meaning") == Some(JStr(x.meaning))
      && Get(o.event.payload.fields, "facts") == Some(FactsJson(x.facts))
      && (forall k :: k in PyValues.Keys(info.fields) && k != "meaning" && k != "facts" ==>
            Get(o.event.payload.fields, k) == Get(info.fields, k))
      && o.delay == Utils.SmartPoll(info) && o.sleeps == [o.delay] && o.delay >= 5.0
  {
    var info := Spotify.CurrentPlaying(token, poll).value;
    var lookup := Xray.SongInfo(s, info, chain, strOf, loadsError);
    Utils.PlayingByIndex(info);
    PlayingEnriches(info, delay, s, chain, strOf, loadsError);
    PayloadMerges(info.fields, lookup.result.value);
  }

  /** An idle snapshot is passed on unchanged as a data event, and the cycle sleeps twice:
      once in the branch and once more on the way out through `finally`. */
  lemma IdleCycle(token: string, delay: real, poll: Poll, s: Snapshot, chain: Xray.Chain,
                  strOf: Json -> string, loadsError: string -> string)
    requires token != ""
    requires Spotify.CurrentPlaying(token, poll).Ok?
    requires var info := Spotify.CurrentPlaying(token, poll).value;
      Truthy(info) && Index(info, "is_playing").Ok? && !Truthy(Index(info, "is_playing").value)
    ensures CycleSpec(Some(token), delay, poll, s, chain, strOf, loadsError)
         == CycleOutcome(DataEvent(Spotify.CurrentPlaying(token, poll).value), [delay, delay], delay, s)
  {
  }

  /** A falsy snapshot (`None` or an empty dict) is the empty-`song_info` error, and the
      cycle sleeps twice: once in the branch and once more through `finally`. */
  lemma EmptySnapshotCycle(token: string, delay: real, poll: Poll, s: Snapshot, chain: Xray.Chain,
                           strOf: Json -> string, loadsError: string -> string)
    requires token != ""
    requires Spotify.CurrentPlaying(token, poll).Ok? && !Truthy(Spotify.CurrentPlaying(token, poll).value)
    ensures CycleSpec(Some(token), delay, poll, s, chain, strOf, loadsError)
         == CycleOutcome(ErrorText("A Server Side Error Occured: Empty song_info"), [delay, delay], delay, s)
  {
  }

  /** A playing snapshot whose enrichment raises (the track's fields, the cache or the
      chain): one error event with the exception's text, one sleep, the delay and the
      store kept. */
  lemma EnrichmentFailureCycle(token: string, delay: real, poll: Poll, s: Snapshot, chain: Xray.Chain,
                               strOf: Json -> string, loadsError: string -> string)
    requires token != ""
    requires Spotify.CurrentPlaying(token, poll).Ok?
    requires Utils.Playing(Spotify.CurrentPlaying(token, poll).value)
    requires Xray.SongInfo(s, Spotify.CurrentPlaying(token, poll).value, chain, strOf, loadsError).result.Err?
    ensures var e := Xray.SongInfo(s, Spotify.CurrentPlaying(token, poll).value, chain, strOf, loadsError).result.error;
      CycleSpec(Some(token), delay, poll, s, chain, strOf, loadsError)
        == CycleOutcome(ErrorText(Str(e)), [delay], delay, s)
  {
    Utils.PlayingByIndex(Spotify.CurrentPlaying(token, poll).value);
  }

  /** A poll that fails in transport: one error event with the failure's text, one
      sleep, the delay kept. */
  lemma TransportFailureCycle(token: string, delay: real, message: string, s: Snapshot, chain: Xray.Chain,
                              strOf: Json -> string, loadsError: string -> string)
    requires token != ""
    ensures CycleSpec(Some(token), delay, TransportFailure(message), s, chain, strOf, loadsError)
         == CycleOutcome(ErrorText(message), [delay], delay, s)
  {
  }

  /** A truthy snapshot that is not a dict cannot be subscripted by `"is_playing"`: the
      TypeError's text is the event, with one sleep and the delay kept. */
  lemma NonDictSnapshotCycle(token: string, delay: real, poll: Poll, s: Snapshot, chain: Xray.Chain,
                             strOf: Json -> string, loadsError: string -> string)
    requires token != ""
    requires Spotify.CurrentPlaying(token, poll).Ok?
    requires var v := Spotify.CurrentPlaying(token, poll).value; Truthy(v) && !v.JObj?
    ensures var v := Spotify.CurrentPlaying(token, poll).value;
      && Index(v, "is_playing").Err? && Index(v, "is_playing").error.TypeError?
      && CycleSpec(Some(token), delay, poll, s, chain, strOf, loadsError)
         == CycleOutcome(ErrorText(Index(v, "is_playing").error.message), [delay], delay, s)
  {
  }

  /** A 204 reply is an idle snapshot. */
  lemma NothingPlayingCycle(token: string, delay: real, reply: HttpReply, s: Snapshot, chain: Xray.Chain,
                            strOf: Json -> string, loadsError: string -> string)
    requires token != "" && reply.status == 204
    ensures CycleSpec(Some(token), delay, Answered(reply), s, chain, strOf, loadsError)
         == CycleOutcome(DataEvent(IdleRecord), [delay, delay], delay, s)
  {
    assert Index(IdleRecord, "is_playing") == Ok(JBool(false));
  }

  /** A 401 reply with a token is an expired token: one error event, one sleep, the
      delay kept. */
  lemma ExpiredTokenCycle(token: string, delay: real, reply: HttpReply, s: Snapshot, chain: Xray.Chain,
                          strOf: Json -> string, loadsError: string -> string)
    requires token != "" && reply.status == 401
    ensures CycleSpec(Some(token), delay, Answered(reply), s, chain, strOf, loadsError)
         == CycleOutcome(ErrorText("Access token is invalid or expired"), [delay], delay, s)
  {
  }

  /** A document without `is_playing` raises KeyError, whose text is the quoted key. */
  lemma MissingFlagCycle(token: string, delay: real, reply: HttpReply, fields: Fields, s: Snapshot,
                         chain: Xray.Chain, strOf: Json -> string, loadsError: string -> string)
    requires token != "" && reply.status == 200 && reply.body == Parsed(JObj(fields))
    requires fields != [] && "is_playing" !in PyValues.Keys(fields)
    ensures CycleSpec(Some(token), delay, Answered(reply), s, chain, strOf, loadsError)
         == CycleOutcome(ErrorText("'is_playing'"), [delay], delay, s)
  {
  }

  // ---- the stream ----

  /** The effect of a run of cycles. */
  datatype Trace = Trace(events: seq<Event>, sleeps: seq<real>, delay: real, store: Snapshot)

  /** Cycles one after the other, one per poll outcome, each starting from the delay and
      the store the previous one left. */
  function Run(token: Option<string>, delay: real, polls: seq<Poll>, s: Snapshot, chain: Xray.Chain,
               strOf: Json -> string, loadsError: string -> string): (t: Trace)
    ensures |t.events| == |polls|
    ensures |polls| <= |t.sleeps| <= 2 * |polls|
    ensures delay >= 5.0 ==> t.delay >= 5.0 && forall i :: 0 <= i < |t.sleeps| ==> t.sleeps[i] >= 5.0
    ensures !Present(token) ==>
      t == Trace(seq(|polls|, _ => ErrorEvent(MissingTokenRecord)), seq(|polls|, _ => delay), delay, s)
    decreases |polls|
  {
    if polls == [] then Trace([], [], delay, s)
    else
      var prev := Run(token, delay, polls[..|polls| - 1], s, chain, strOf, loadsError);
      var o := CycleSpec(token, prev.delay, polls[|polls| - 1], prev.store, chain, strOf, loadsError);
      var t := Trace(prev.events + [o.event], prev.sleeps + o.sleeps, o.delay, o.store);
      assert delay >= 5.0 ==> forall i :: 0 <= i < |t.sleeps| ==> t.sleeps[i] >= 5.0 by {
        if delay >= 5.0 {
          forall i | 0 <= i < |t.sleeps| ensures t.sleeps[i] >= 5.0 {
            if i >= |prev.sleeps| { assert t.sleeps[i] == o.sleeps[i - |prev.sleeps|]; }
          }
        }
      }
      t
  }

  /** One more poll outcome adds one cycle at the end of the run. */
  lemma RunStep(token: Option<string>, delay: real, polls: seq<Poll>, i: nat, s: Snapshot,
                chain: Xray.Chain, strOf: Json -> string, loadsError: string -> string)
    requires i < |polls|
    ensures var prev := Run(token, delay, polls[..i], s, chain, strOf, loadsError);
      var o := CycleSpec(token, prev.delay, polls[i], prev.store, chain, strOf, loadsError);
      Run(token, delay, polls[..i + 1], s, chain, strOf, loadsError)
        == Trace(prev.events + [o.event], prev.sleeps + o.sleeps, o.delay, o.store)
  {
    assert polls[..i + 1][..i] == polls[..i];
  }

  /** The `/xray` stream of one client: the token read once from the cookie when the
      stream opens, the poll delay, and what the stream has yielded and slept so far. */
  class Stream {
    const token: Option<string>
    var pollDelay: real
    var events: seq<Event>
    var sleeps: seq<real>

    predicate Valid()
      reads this
    {
      pollDelay >= 5.0
    }

    constructor (token: Option<string>)
      ensures this.token == token && pollDelay == 5.0 && events == [] && sleeps == []
      ensures Valid()
    {
      this.token := token;
      pollDelay, events, sleeps := 5.0, [], [];
    }

    /** One pass of the loop body. */
    method Cycle(store: Store, poll: Poll, chain: Xray.Chain, strOf: Json -> string, loadsError: string -> string)
      requires Valid()
      modifies this, store
      ensures Valid()
      ensures var o := CycleSpec(token, old(pollDelay), poll, old(store.State()), chain, strOf, loadsError);
        && events == old(events) + [o.event] && sleeps == old(sleeps) + o.sleeps
        && pollDelay == o.delay && store.State() == o.store
    {
      if !Present(token) {
        events := events + [ErrorEvent(MissingTokenRecord)];
        sleeps := sleeps + [pollDelay];
        return;
      }
      var songInfo := Spotify.CurrentPlaying(token.value, poll);
      if songInfo.Err? {
        events := events + [ErrorText(Str(songInfo.error))];
        sleeps := sleeps + [pollDelay];
        return;
      }
      var info := songInfo.value;
      if !Truthy(info) {
        events := events + [ErrorText(EmptySongInfoText)];
        sleeps := sleeps + [pollDelay];
        sleeps := sleeps + [pollDelay];
        return;
      }
      var flag := Index(info, "is_playing");
      if flag.Err? {
        events := events + [ErrorText(Str(flag.error))];
        sleeps := sleeps + [pollDelay];
        return;
      }
      if !Truthy(flag.value) {
        events := events + [DataEvent(info)];
        sleeps := sleeps + [pollDelay];
        sleeps := sleeps + [pollDelay];
        return;
      }
      var songXray, _ := Xray.GetSongInfo(store, info, chain, strOf, loadsError);
      if songXray.Err? {
        events := events + [ErrorText(Str(songXray.error))];
        sleeps := sleeps + [pollDelay];
        return;
      }
      var data := Payload(info.fields, songXray.value);
      pollDelay := Utils.SmartPoll(info);
      events := events + [DataEvent(data)];
      sleeps := sleeps + [pollDelay];
    }

    /** Cycles for a sequence of poll outcomes. */
    method Serve(store: Store, polls: seq<Poll>, chain: Xray.Chain, strOf: Json -> string,
                 loadsError: string -> string)
      requires Valid()
      modifies this, store
      ensures Valid()
      ensures var t := Run(token, old(pollDelay), polls, old(store.State()), chain, strOf, loadsError);
        && events == old(events) + t.events && sleeps == old(sleeps) + t.sleeps
        && pollDelay == t.delay && store.State() == t.store
    {
      ghost var delay0, events0, sleeps0, s0 := pollDelay, events, sleeps, store.State();
      ghost var t := Trace([], [], delay0, s0);
      var i := 0;
      while i < |polls|
        invariant 0 <= i <= |polls|
        invariant Valid()
        invariant t == Run(token, delay0, polls[..i], s0, chain, strOf, loadsError)
        invariant events == events0 + t.events && sleeps == sleeps0 + t.sleeps
        invariant pollDelay == t.delay && store.State() == t.store
      {
        RunStep(token, delay0, polls, i, s0, chain, strOf, loadsError);
        ghost var o := CycleSpec(token, t.delay, polls[i], t.store, chain, strOf, loadsError);
        Cycle(store, polls[i], chain, strOf, loadsError);
        Append3(events0, t.events, [o.event]);
        Append3(sleeps0, t.sleeps, o.sleeps);
        t := Trace(t.events + [o.event], t.sleeps + o.sleeps, o.delay, o.store);
        i := i + 1;
      }
      assert polls[..|polls|] == polls;
    }
  }

  /** Without a token the stream never recovers: every cycle yields the missing-token
      event and sleeps once, at the initial delay. */
  lemma NoTokenStream(polls: seq<Poll>, s: Snapshot, chain: Xray.Chain, strOf: Json -> string,
                      loadsError: string -> string, dumps: Json -> string)
    ensures var t := Run(None, 5.0, polls, s, chain, strOf, loadsError);
      && t.store == s && t.sleeps == seq(|polls|, _ => 5.0)
      && (forall i :: 0 <= i < |polls| ==>
            Render(t.events[i], dumps) == "event: error\ndata: " + dumps(MissingTokenRecord) + "\n\n")
  {
  }

  /** The stream's body, as a client's EventSource reads it: one message per cycle, in
      order, provided no payload text contains a line break. */
  lemma StreamFraming(token: Option<string>, delay: real, polls: seq<Poll>, s: Snapshot, chain: Xray.Chain,
                      strOf: Json -> string, loadsError: string -> string, dumps: Json -> string)
    requires var t := Run(token, delay, polls, s, chain, strOf, loadsError);
      forall i :: 0 <= i < |t.events| ==> NoLineBreak(DataOf(t.events[i], dumps))
    ensures var t := Run(token, delay, polls, s, chain, strOf, loadsError);
      && Feed(Initial, Wire(t.events, dumps)) == (Initial, ExpectedAll(t.events, dumps))
      && |ExpectedAll(t.events, dumps)| == |polls|
  {
    var t := Run(token, delay, polls, s, chain, strOf, loadsError);
    WireDispatches(t.events, dumps);
  }
}
