/**
  The records both revisions of the currently-playing call share, and the
  endpoint they poll.
*/
module Playback {
  import opened PyValues

  const ApiBaseUrl: string := "https://api.spotify.com/v1"
  const CurrentlyPlayingUrl: string := ApiBaseUrl + "/me/player/currently-playing"

  /** The record standing for "nothing is playing" (status 204). */
  const IdleRecord: Json :=
    JObj([("is_playing", JBool(false)), ("message", JStr("No track is currently playing"))])

  /** The record sent when the client holds no access token. */
  const MissingTokenRecord: Json :=
    JObj([("error", JStr("Access code not found")), ("status_code", JInt(401))])
}
