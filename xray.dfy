/**
  `get_song_info` in `xray.py`: a cache-aside lookup of a track's enrichment
  record under `song_info:<track id>`, filled on a miss by the language-model
  chain, which is a function passed in.
*/
module Xray {
  import opened PyValues
  import opened KeyValueStore
  import Keys
  import Utils
  import opened XrayRecord

  /** Seconds a cached record is kept (one day). */
  const SongInfoTtl: nat := 86400

  /** `chain.invoke({"song_name": ..., "artist_name": ...})`: the record, or the message of
      the exception it raised. */
  type Chain = (Json, string) -> Result<SongXray, string>

  /** What the lookup reads from the currently-playing document before touching the cache. */
  datatype Track = Track(name: Json, artists: string, key: string)

  /** The song name, the artist string and the cache key, read in that order; the first
      read that raises decides the exception. */
  function ReadTrack(info: Json, strOf: Json -> string): (r: Result<Track, Exc>)
    ensures r.Ok? <==> Utils.SongName(info).Ok? && Utils.GetArtists(info).Ok? && Utils.SongId(info).Ok?
    ensures r.Ok? ==> r.value.key == Keys.SongInfoKey(Format(Utils.SongId(info).value, strOf))
    ensures r.Ok? ==> r.value.name == Utils.SongName(info).value
    ensures r.Ok? ==> r.value.artists == Utils.GetArtists(info).value.0
    ensures Utils.SongName(info).Err? ==> r == Err(Utils.SongName(info).error)
    ensures Utils.SongName(info).Ok? && Utils.GetArtists(info).Err? ==> r == Err(Utils.GetArtists(info).error)
    ensures Utils.SongName(info).Ok? && Utils.GetArtists(info).Ok? && Utils.SongId(info).Err? ==>
      r == Err(Utils.SongId(info).error)
  {
    match Utils.SongName(info)
    case Err(e) => Err(e)
    case Ok(name) =>
      match Utils.GetArtists(info)
      case Err(e) => Err(e)
      case Ok((artists, _)) =>
        match Utils.SongId(info)
        case Err(e) => Err(e)
        case Ok(id) => Ok(Track(name, artists, Keys.SongInfoKey(Format(id, strOf))))
  }

  /** Two tracks share a cache entry exactly when their ids format alike: the name and
      the artists play no part. */
  lemma CacheKeyIsTheId(a: Json, b: Json, strOf: Json -> string)
    requires ReadTrack(a, strOf).Ok? && ReadTrack(b, strOf).Ok?
    ensures ReadTrack(a, strOf).value.key == ReadTrack(b, strOf).value.key
      <==> Format(Utils.SongId(a).value, strOf) == Format(Utils.SongId(b).value, strOf)
  {
    Keys.KeyLayout(Format(Utils.SongId(a).value, strOf), Format(Utils.SongId(b).value, strOf));
  }

  /** `json.loads(cached)`, the JSONDecodeError message coming from `loadsError`. */
  function DecodeCached(text: string, loadsError: string -> string): (r: Result<SongXray, Exc>)
    ensures r.Ok? <==> Decode(text).Some?
    ensures r.Ok? ==> r.value == Decode(text).value
  {
    match Decode(text)
    case Some(x) => Ok(x)
    case None => Err(JsonDecodeError(loadsError(text)))
  }

  /** The outcome of one lookup: the record or exception, the new store content, and
      whether the chain was invoked. */
  datatype Outcome = Outcome(result: Result<SongXray, Exc>, store: Snapshot, chainInvoked: bool)

  /** The store is unchanged, or one record is cached under a track's key. */
  ghost predicate CacheFill(s: Snapshot, t: Snapshot) {
    t == s || exists id: string, x: SongXray :: t == s.Put(Keys.SongInfoKey(id), Encode(x), SongInfoTtl)
  }

  /** `get_song_info(store, song_info)`, on the store's content. */
  function SongInfo(s: Snapshot, info: Json, chain: Chain, strOf: Json -> string, loadsError: string -> string)
    : (o: Outcome)
    ensures !o.chainInvoked ==> o.store == s
    ensures o.store != s ==> o.chainInvoked && o.result.Ok?
    ensures forall k :: o.store.Lookup(k) != s.Lookup(k) ==>
      ReadTrack(info, strOf).Ok? && k == ReadTrack(info, strOf).value.key
    ensures o.chainInvoked ==>
      ReadTrack(info, strOf).Ok? && !Present(s.Lookup(ReadTrack(info, strOf).value.key))
    ensures o.chainInvoked && o.result.Ok? ==>
      o.store == s.Put(ReadTrack(info, strOf).value.key, Encode(o.result.value), 86400)
    ensures ReadTrack(info, strOf).Err? ==> o == Outcome(Err(ReadTrack(info, strOf).error), s, false)
    ensures ReadTrack(info, strOf).Ok? && Present(s.Lookup(ReadTrack(info, strOf).value.key)) ==>
      o == Outcome(DecodeCached(s.Lookup(ReadTrack(info, strOf).value.key).value, loadsError), s, false)
    ensures ReadTrack(info, strOf).Ok? && !Present(s.Lookup(ReadTrack(info, strOf).value.key)) ==>
      var t := ReadTrack(info, strOf).value;
      && o.chainInvoked
      && o.result == (match chain(t.name, t.artists) case Ok(x) => Ok(x) case Err(m) => Err(ChainFailure(m)))
    ensures CacheFill(s, o.store)
  {
    match ReadTrack(info, strOf)
    case Err(e) => Outcome(Err(e), s, false)
    case Ok(track) =>
      var cached := s.Lookup(track.key);
      if Present(cached) then Outcome(DecodeCached(cached.value, loadsError), s, false)
      else
        match chain(track.name, track.artists)
        case Err(m) => Outcome(Err(ChainFailure(m)), s, true)
        case Ok(x) => Outcome(Ok(x), s.Put(track.key, Encode(x), SongInfoTtl), true)
  }

  /** `get_song_info`. `chainInvoked` records whether the chain ran. */
  method GetSongInfo(store: Store, info: Json, chain: Chain, strOf: Json -> string, loadsError: string -> string)
    returns (r: Result<SongXray, Exc>, ghost chainInvoked: bool)
    modifies store
    ensures Outcome(r, store.State(), chainInvoked) == SongInfo(old(store.State()), info, chain, strOf, loadsError)
  {
    var name := Utils.SongName(info);
    if name.Err? {
      return Err(name.error), false;
    }
    var artists := Utils.GetArtists(info);
    if artists.Err? {
      return Err(artists.error), false;
    }
    var id := Utils.SongId(info);
    if id.Err? {
      return Err(id.error), false;
    }
    var key := Keys.SongInfoKey(Format(id.value, strOf));
    var cached := store.Get(key);
    if Present(cached) {
      return DecodeCached(cached.value, loadsError), false;
    }
    var response := chain(name.value, artists.value.0);
    if response.Err? {
      return Err(ChainFailure(response.error)), true;
    }
    store.Set(key, Encode(response.value), SongInfoTtl);
    r, chainInvoked := Ok(response.value), true;
  }

  /** A hit returns the decoded cached record and writes nothing, whatever the chain. */
  lemma HitIgnoresChain(s: Snapshot, info: Json, chain: Chain, strOf: Json -> string, loadsError: string -> string)
    requires ReadTrack(info, strOf).Ok?
    requires Present(s.Lookup(ReadTrack(info, strOf).value.key))
    ensures SongInfo(s, info, chain, strOf, loadsError)
         == Outcome(DecodeCached(s.Lookup(ReadTrack(info, strOf).value.key).value, loadsError), s, false)
  {
  }

  /** After a miss fills the cache, the same lookup with no write in between is a hit
      that returns the same record without invoking the chain. */
  lemma MissThenHit(s: Snapshot, info: Json, chain: Chain, later: Chain, strOf: Json -> string,
                    loadsError: string -> string)
    requires SongInfo(s, info, chain, strOf, loadsError).chainInvoked
    requires SongInfo(s, info, chain, strOf, loadsError).result.Ok?
    ensures var first := SongInfo(s, info, chain, strOf, loadsError);
      SongInfo(first.store, info, later, strOf, loadsError) == Outcome(first.result, first.store, false)
  {
    var first := SongInfo(s, info, chain, strOf, loadsError);
    var x := first.result.value;
    var key := ReadTrack(info, strOf).value.key;
    DecodeEncode(x);
    assert first.store.Lookup(key) == Some(Encode(x));
    assert Encode(x) != "" by {
      assert |MeaningPrefix| > 0;
    }
  }

  /** Two tracks with the same id read the same cache entry: on a hit they get the same
      record, whatever their names and artists. */
  lemma SameIdSameRecord(s: Snapshot, a: Json, b: Json, chain: Chain, strOf: Json -> string,
                         loadsError: string -> string)
    requires ReadTrack(a, strOf).Ok? && ReadTrack(b, strOf).Ok?
    requires Utils.SongId(a) == Utils.SongId(b)
    requires Present(s.Lookup(ReadTrack(a, strOf).value.key))
    ensures SongInfo(s, a, chain, strOf, loadsError).result == SongInfo(s, b, chain, strOf, loadsError).result
    ensures !SongInfo(s, b, chain, strOf, loadsError).chainInvoked
  {
  }
}
