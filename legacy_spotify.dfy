/**
  `spotify.py`, the older revision of the currently-playing call, which turns
  every failure into an error record instead of raising.
*/
module LegacySpotify {
  import opened PyValues
  import opened Requests
  import Spotify
  import opened Playback

  /** `{"error": str(e), "status_code": response.status_code, "message": response.reason}`. */
  function ErrorRecord(message: string, status: int, reason: string): (r: Json)
    ensures r.JObj? && Keys(r.fields) == ["error", "status_code", "message"]
    ensures Get(r.fields, "error") == Some(JStr(message))
    ensures Get(r.fields, "status_code") == Some(JInt(status))
    ensures Get(r.fields, "message") == Some(JStr(reason))
  {
    JObj([("error", JStr(message)), ("status_code", JInt(status)), ("message", JStr(reason))])
  }

  /** `get_current_playing(token)`, given the reply its GET would receive; `JNull` is the
      `None` returned when `raise_for_status` does not raise. */
  function LegacyCurrentPlaying(token: string, reply: HttpReply): (r: Json)
    ensures token == "" ==> r == MissingTokenRecord
    ensures token != "" && reply.status == 204 ==> r == IdleRecord
    ensures token != "" && reply.status == 200 && reply.body.Parsed? ==> r == reply.body.value
    ensures token != "" && reply.status == 200 && reply.body.Unparsable? ==>
      r == ErrorRecord(reply.body.message, 200, reply.reason)
    ensures token != "" && reply.status != 200 && reply.status != 204 && 400 <= reply.status < 600 ==>
      r == ErrorRecord(HttpErrorMessage(reply.status, reply.reason, CurrentlyPlayingUrl),
                       reply.status, reply.reason)
    ensures token != "" && reply.status != 200 && reply.status != 204 && !(400 <= reply.status < 600) ==>
      r == JNull
  {
    if token == "" then MissingTokenRecord
    else if reply.status == 204 then IdleRecord
    else if reply.status == 200 then
      match reply.body
      case Parsed(v) => v
      case Unparsable(m) => ErrorRecord(m, reply.status, reply.reason)
    else if RaisesForStatus(reply.status) then
      ErrorRecord(HttpErrorMessage(reply.status, reply.reason, CurrentlyPlayingUrl),
                  reply.status, reply.reason)
    else JNull
  }

  /** With an empty token no request is made: the reply plays no part in the result. */
  lemma EmptyTokenIgnoresReply(a: HttpReply, b: HttpReply)
    ensures LegacyCurrentPlaying("", a) == LegacyCurrentPlaying("", b)
  {
  }

  /** The two revisions agree on a playing or idle reply; they part on the other statuses,
      where the newer one passes the body on or raises and the older one builds a record or
      returns `None`. */
  lemma RevisionsAgreeOnSuccess(token: string, reply: HttpReply)
    requires token != ""
    ensures reply.status == 204 ==>
      Spotify.CurrentPlaying(token, Answered(reply)) == Ok(LegacyCurrentPlaying(token, reply))
    ensures reply.status == 200 && reply.body.Parsed? ==>
      Spotify.CurrentPlaying(token, Answered(reply)) == Ok(LegacyCurrentPlaying(token, reply))
    ensures reply.status == 401 ==>
      Spotify.CurrentPlaying(token, Answered(reply)).Err?
      && LegacyCurrentPlaying(token, reply).JObj?
  {
  }
}
