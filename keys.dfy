/**
  The key layout of the shared store: each handler writes under its own
  prefix followed by an identifier.
*/
module Keys {

  /** A CSRF `state` minted for one authorization redirect. */
  function StateKey(state: string): string { "spotify_state:" + state }

  /** The access token of a session (read by `get_access_token`, written by a refresh). */
  function AccessKey(sessionId: string): string { "access_token:" + sessionId }

  /** The refresh token of a session (read by `get_refresh_token`). */
  function RefreshKey(sessionId: string): string { "refresh_token:" + sessionId }

  /** The cached enrichment record of a track. */
  function SongInfoKey(trackId: string): string { "song_info:" + trackId }

  lemma {:induction false} PrefixCancel(p: string, a: string, b: string)
    requires p + a == p + b
    ensures a == b
  {
    assert a == (p + a)[|p|..];
    assert b == (p + b)[|p|..];
  }

  /** Each kind of key determines its identifier, and keys of different kinds never
      coincide, so a write under one kind of key leaves every other kind untouched. */
  lemma {:induction false} KeyLayout(x: string, y: string)
    ensures StateKey(x) == StateKey(y) ==> x == y
    ensures AccessKey(x) == AccessKey(y) ==> x == y
    ensures RefreshKey(x) == RefreshKey(y) ==> x == y
    ensures SongInfoKey(x) == SongInfoKey(y) ==> x == y
    ensures StateKey(x) != AccessKey(y) && StateKey(x) != RefreshKey(y)
    ensures StateKey(x) != SongInfoKey(y) && AccessKey(x) != RefreshKey(y)
    ensures AccessKey(x) != SongInfoKey(y) && RefreshKey(x) != SongInfoKey(y)
  {
    if StateKey(x) == StateKey(y) { PrefixCancel("spotify_state:", x, y); }
    if AccessKey(x) == AccessKey(y) { PrefixCancel("access_token:", x, y); }
    if RefreshKey(x) == RefreshKey(y) { PrefixCancel("refresh_token:", x, y); }
    if SongInfoKey(x) == SongInfoKey(y) { PrefixCancel("song_info:", x, y); }
    assert StateKey(x)[0] == 's' && AccessKey(y)[0] == 'a' && RefreshKey(y)[0] == 'r';
    assert StateKey(x)[1] == 'p' && SongInfoKey(y)[1] == 'o';
    assert AccessKey(x)[0] == 'a' && RefreshKey(x)[0] == 'r' && SongInfoKey(y)[0] == 's';
  }
}
