/**
  `src/utils.py` (and its older copy `utils.py`, identical in every function
  modelled here): field accessors over the currently-playing document, the
  artist list, the adaptive poll delay, the token lookups and the
  `Dict2EventSourceString` formatter.
*/
module Utils {
  import opened PyValues
  import opened KeyValueStore
  import Keys

  // ---- accessors: fixed subscript paths into the currently-playing document ----

  /** `v[a][b]`: the second subscript is applied only when the first succeeds. */
  function Then(first: Result<Json, Exc>, k: string): Result<Json, Exc> {
    match first
    case Err(e) => Err(e)
    case Ok(w) => Index(w, k)
  }

  /** `song_info["item"]["id"]`. */
  function SongId(info: Json): (r: Result<Json, Exc>)
    ensures r == Then(Index(info, "item"), "id")
  {
    assert ["item", "id"][1..] == ["id"] && ["id"][1..] == [];
    At(info, ["item", "id"])
  }

  /** `song_info["item"]["name"]`. */
  function SongName(info: Json): (r: Result<Json, Exc>)
    ensures r == Then(Index(info, "item"), "name")
  {
    assert ["item", "name"][1..] == ["name"] && ["name"][1..] == [];
    At(info, ["item", "name"])
  }

  /** `song_info["item"]["album"]["name"]`. */
  function AlbumName(info: Json): (r: Result<Json, Exc>)
    ensures r == Then(Then(Index(info, "item"), "album"), "name")
  {
    assert ["item", "album", "name"][1..] == ["album", "name"];
    assert ["album", "name"][1..] == ["name"] && ["name"][1..] == [];
    At(info, ["item", "album", "name"])
  }

  /** `song_info["item"]["duration_ms"]`. */
  function SongDuration(info: Json): (r: Result<Json, Exc>)
    ensures r == Then(Index(info, "item"), "duration_ms")
  {
    assert ["item", "duration_ms"][1..] == ["duration_ms"] && ["duration_ms"][1..] == [];
    At(info, ["item", "duration_ms"])
  }

  /** `song_info["progress_ms"]`. */
  function SongProgress(info: Json): (r: Result<Json, Exc>)
    ensures r == Index(info, "progress_ms")
  {
    assert ["progress_ms"][1..] == [];
    At(info, ["progress_ms"])
  }

  /** `song_info["is_playing"]`. */
  function IsSongPlaying(info: Json): (r: Result<Json, Exc>)
    ensures r == Index(info, "is_playing")
  {
    assert ["is_playing"][1..] == [];
    At(info, ["is_playing"])
  }

  /** The accessors read the entries `item`, `progress_ms` and `is_playing` and nothing else:
      two documents that agree on those three entries agree on every accessor. */
  lemma AccessorsReadFixedPaths(f: Fields, g: Fields)
    requires Get(f, "item") == Get(g, "item")
    requires Get(f, "progress_ms") == Get(g, "progress_ms")
    requires Get(f, "is_playing") == Get(g, "is_playing")
    ensures SongId(JObj(f)) == SongId(JObj(g)) && SongName(JObj(f)) == SongName(JObj(g))
    ensures AlbumName(JObj(f)) == AlbumName(JObj(g))
    ensures SongDuration(JObj(f)) == SongDuration(JObj(g))
    ensures SongProgress(JObj(f)) == SongProgress(JObj(g))
    ensures IsSongPlaying(JObj(f)) == IsSongPlaying(JObj(g))
  {
  }

  // ---- get_artists ----

  /** The artist entries the comprehension walks: `song_info["item"]["artists"]`, iterated. */
  function ArtistEntries(info: Json): Result<seq<Json>, Exc> {
    match At(info, ["item", "artists"])
    case Err(e) => Err(e)
    case Ok(coll) => Iterate(coll)
  }

  /** `[artist_info["name"] for artist_info in artists]`, raising at the first failing subscript. */
  function ArtistNames(artists: seq<Json>): (r: Result<seq<Json>, Exc>)
    ensures r.Ok? <==> forall i :: 0 <= i < |artists| ==> Index(artists[i], "name").Ok?
    ensures r.Ok? ==>
      (|r.value| == |artists|
       && forall i :: 0 <= i < |artists| ==> Index(artists[i], "name") == Ok(r.value[i]))
  {
    if artists == [] then Ok([])
    else
      match Index(artists[0], "name")
      case Err(e) => Err(e)
      case Ok(n) =>
        var rest := ArtistNames(artists[1..]);
        assert forall i :: 1 <= i < |artists| ==> artists[i] == artists[1..][i - 1];
        match rest
        case Err(e) => Err(e)
        case Ok(ns) => Ok([n] + ns)
  }

  /** `get_artists`: the artist names in their original order and number, and their
      `", "`-join; it raises when an entry has no name or a name is not a string. */
  function GetArtists(info: Json): (r: Result<(string, seq<string>), Exc>)
    ensures r.Ok? <==>
      (ArtistEntries(info).Ok?
       && forall i :: 0 <= i < |ArtistEntries(info).value| ==>
            var n := Index(ArtistEntries(info).value[i], "name"); n.Ok? && n.value.JStr?)
    ensures r.Ok? ==>
      var xs := ArtistEntries(info).value;
      && |r.value.1| == |xs|
      && (forall i :: 0 <= i < |xs| ==> Index(xs[i], "name") == Ok(JStr(r.value.1[i])))
      && r.value.0 == Join(r.value.1, ", ")
  {
    match ArtistEntries(info)
    case Err(e) => Err(e)
    case Ok(xs) =>
      match ArtistNames(xs)
      case Err(e) => Err(e)
      case Ok(names) =>
        match JoinItems(names, ", ")
        case Err(e) => Err(e)
        case Ok(joined) => Ok((joined, Strings(names)))
  }

  // ---- smart_poll ----

  const DefaultDelay: real := 5.0

  /** An operand of `-`: Python ints, floats and bools are numbers, everything else raises. */
  function Numeric(v: Json): Option<real> {
    match v
    case JInt(i) => Some(i as real)
    case JFloat(f) => Some(f)
    case JBool(b) => Some(if b then 1.0 else 0.0)
    case _ => None
  }

  /** `(duration_ms - progress_ms) / 1000 / 10`, or None when a subscript or the subtraction raises. */
  function TenthOfRemaining(info: Json): Option<real> {
    match (SongDuration(info), SongProgress(info))
    case (Ok(d), Ok(p)) =>
      (match (Numeric(d), Numeric(p))
       case (Some(dn), Some(pn)) => Some((dn - pn) / 1000.0 / 10.0)
       case _ => None)
    case _ => None
  }

  /** The document says a track is playing: `song_info["is_playing"]` exists and is truthy. */
  predicate Playing(info: Json) {
    IsSongPlaying(info).Ok? && Truthy(IsSongPlaying(info).value)
  }

  /** The loop body's own test `song_info["is_playing"]` reads the same entry. */
  lemma PlayingByIndex(info: Json)
    ensures IsSongPlaying(info) == Index(info, "is_playing")
    ensures Playing(info) ==> info.JObj? && info.fields != [] && Truthy(info)
  {
    assert ["is_playing"][1..] == [];
  }

  /** `smart_poll`: the seconds to wait before the next poll. */
  function SmartPoll(info: Json): (r: real)
    ensures r >= DefaultDelay
    ensures !Playing(info) ==> r == DefaultDelay
    ensures Playing(info) && TenthOfRemaining(info).None? ==> r == DefaultDelay
    ensures Playing(info) && TenthOfRemaining(info).Some? ==>
      r >= TenthOfRemaining(info).value && (r == DefaultDelay || r == TenthOfRemaining(info).value)
  {
    match IsSongPlaying(info)
    case Err(_) => DefaultDelay
    case Ok(flag) =>
      if !Truthy(flag) then DefaultDelay
      else
        match TenthOfRemaining(info)
        case None => DefaultDelay
        case Some(x) => if DefaultDelay >= x then DefaultDelay else x
  }

  /** A currently-playing document carrying just the fields the delay reads. */
  function PlaybackState(playing: bool, durationMs: int, progressMs: int): Json {
    JObj([("is_playing", JBool(playing)),
          ("progress_ms", JInt(progressMs)),
          ("item", JObj([("duration_ms", JInt(durationMs))]))])
  }

  lemma PlaybackStateFields(playing: bool, durationMs: int, progressMs: int)
    ensures var f := PlaybackState(playing, durationMs, progressMs).fields;
      && Get(f, "is_playing") == Some(JBool(playing))
      && Get(f, "progress_ms") == Some(JInt(progressMs))
      && Get(f, "item") == Some(JObj([("duration_ms", JInt(durationMs))]))
  {
    var f := PlaybackState(playing, durationMs, progressMs).fields;
    assert "is_playing" != "item" && "progress_ms" != "item" && "is_playing" != "progress_ms";
    assert Get(f[2..], "item") == Some(JObj([("duration_ms", JInt(durationMs))]));
    assert Get(f[1..], "item") == Get(f[1..][1..], "item");
  }

  lemma PlaybackStateReads(playing: bool, durationMs: int, progressMs: int)
    ensures IsSongPlaying(PlaybackState(playing, durationMs, progressMs)) == Ok(JBool(playing))
    ensures TenthOfRemaining(PlaybackState(playing, durationMs, progressMs))
         == Some(((durationMs - progressMs) as real) / 10000.0)
  {
    var item := [("duration_ms", JInt(durationMs))];
    PlaybackStateFields(playing, durationMs, progressMs);
    assert Get(item, "duration_ms") == Some(JInt(durationMs));
  }

  /** While a track plays, the delay is a tenth of the remaining seconds, and never below
      the default. */
  lemma SmartPollPlaying(durationMs: int, progressMs: int)
    ensures var x := ((durationMs - progressMs) as real) / 10000.0;
      SmartPoll(PlaybackState(true, durationMs, progressMs)) == if x > DefaultDelay then x else DefaultDelay
  {
    PlaybackStateReads(true, durationMs, progressMs);
  }

  lemma SmartPollExamples()
    ensures SmartPoll(PlaybackState(true, 200000, 0)) == 20.0
    ensures SmartPoll(PlaybackState(true, 200000, 150000)) == 5.0
    ensures SmartPoll(PlaybackState(true, 300000, 0)) == 30.0
    ensures SmartPoll(PlaybackState(true, 200000, 250000)) == 5.0
  {
    SmartPollPlaying(200000, 0);
    SmartPollPlaying(200000, 150000);
    SmartPollPlaying(300000, 0);
    SmartPollPlaying(200000, 250000);
  }

  lemma SmartPollIdle(durationMs: int, progressMs: int)
    ensures SmartPoll(PlaybackState(false, durationMs, progressMs)) == DefaultDelay
  {
    PlaybackStateReads(false, durationMs, progressMs);
  }

  /** With the duration fixed, the delay does not grow as the progress grows. */
  lemma SmartPollNonIncreasing(durationMs: int, p1: int, p2: int)
    requires p1 <= p2
    ensures SmartPoll(PlaybackState(true, durationMs, p1)) >= SmartPoll(PlaybackState(true, durationMs, p2))
  {
    SmartPollPlaying(durationMs, p1);
    SmartPollPlaying(durationMs, p2);
  }

  // ---- token lookups ----

  /** `get_access_token`: reads `access_token:<sid>` and writes nothing. */
  method GetAccessToken(store: Store, sessionId: string) returns (token: Option<string>)
    ensures token.Some? <==> Keys.AccessKey(sessionId) in store.values
    ensures token.Some? ==> token.value == store.values[Keys.AccessKey(sessionId)]
  {
    token := store.Get(Keys.AccessKey(sessionId));
  }

  /** `get_refresh_token`: reads `refresh_token:<sid>` and writes nothing. */
  method GetRefreshToken(store: Store, sessionId: string) returns (token: Option<string>)
    ensures token.Some? <==> Keys.RefreshKey(sessionId) in store.values
    ensures token.Some? ==> token.value == store.values[Keys.RefreshKey(sessionId)]
  {
    token := store.Get(Keys.RefreshKey(sessionId));
  }

  // ---- Dict2EventSourceString ----

  /** `Literal["data", "error"]`. */
  datatype EventType = Data | Error {
    function Name(): string {
      match this
      case Data => "data"
      case Error => "error"
    }
  }

  /** `f"{key}: {value}\n"` for one dict entry. */
  function EntryLine(e: (string, Json), strOf: Json -> string): string {
    e.0 + ": " + Format(e.1, strOf) + "\n"
  }

  /** One entry line per dict entry, in the dict's order. */
  function EntryLines(d: Fields, strOf: Json -> string): string
    decreases |d|
  {
    if d == [] then "" else EntryLines(d[..|d| - 1], strOf) + EntryLine(d[|d| - 1], strOf)
  }

  /** The lines of two dicts' entries, one after the other, are the lines of the concatenation. */
  lemma {:induction false} EntryLinesConcat(a: Fields, b: Fields, strOf: Json -> string)
    ensures EntryLines(a + b, strOf) == EntryLines(a, strOf) + EntryLines(b, strOf)
    decreases |b|
  {
    if b == [] {
      assert a + b == a;
    } else {
      var b', last := b[..|b| - 1], b[|b| - 1];
      assert (a + b)[..|a + b| - 1] == a + b';
      assert (a + b)[|a + b| - 1] == last;
      EntryLinesConcat(a, b', strOf);
      calc {
        EntryLines(a + b, strOf);
        EntryLines(a + b', strOf) + EntryLine(last, strOf);
        EntryLines(a, strOf) + EntryLines(b', strOf) + EntryLine(last, strOf);
        EntryLines(a, strOf) + (EntryLines(b', strOf) + EntryLine(last, strOf));
      }
    }
  }

  lemma EntryLinesStep(d: Fields, i: nat, strOf: Json -> string)
    requires i < |d|
    ensures EntryLines(d[..i + 1], strOf) == EntryLines(d[..i], strOf) + EntryLine(d[i], strOf)
  {
    assert d[..i + 1][..i] == d[..i];
  }

  /** The text `Dict2EventSourceString(t, d)` returns. */
  function EventSourceString(t: EventType, d: Fields, strOf: Json -> string): (s: string)
    ensures d == [] ==> s == "event: " + t.Name() + "\n\n\n"
  {
    "event: " + t.Name() + "\n" + EntryLines(d, strOf) + "\n\n"
  }

  /** `Dict2EventSourceString`: builds the text by appending one line per entry. */
  method Dict2EventSourceString(t: EventType, data: Fields, strOf: Json -> string) returns (response: string)
    ensures response == EventSourceString(t, data, strOf)
  {
    response := "";
    response := response + "event: " + t.Name() + "\n";
    var i := 0;
    while i < |data|
      invariant 0 <= i <= |data|
      invariant response == "event: " + t.Name() + "\n" + EntryLines(data[..i], strOf)
    {
      EntryLinesStep(data, i, strOf);
      Append3("event: " + t.Name() + "\n", EntryLines(data[..i], strOf), EntryLine(data[i], strOf));
      response := response + EntryLine(data[i], strOf);
      i := i + 1;
    }
    assert data[..|data|] == data;
    response := response + "\n\n";
  }
}
