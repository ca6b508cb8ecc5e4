/** The catalog client: how decoded responses of the top-albums feed, the track lookup and
    the album search are shaped into albums and songs, the `m:ss` duration text, and the
    post-processing of the AI lookup for a full-song link. The requests themselves are not
    part of the model: each operation receives the decoded response. */
module Api {
  import opened Wrappers
  import opened Text
  import opened Seqs
  import opened Types

  /** One entry of the top-albums feed. */
  datatype FeedAlbum = FeedAlbum(id: string, name: string, artistName: string, artworkUrl100: string)

  /** One record of a lookup or search result; a record of one kind leaves the other
      kind's fields at whatever they hold, and nothing reads them. */
  datatype ResultItem = ResultItem(
    wrapperType: string, collectionType: string,
    collectionId: int, collectionName: string, artistName: string, artworkUrl100: string,
    trackId: int, trackName: string, trackTimeMillis: Option<int>, previewUrl: Option<string>)

  /** A decoded HTTP response: `response.ok` and the result list of its JSON body. */
  datatype Response<T> = Response(ok: bool, results: seq<T>)

  const LowResToken := "100x100"
  const HighResToken := "500x500"
  const NotFoundToken := "NOT_FOUND"

  /** JavaScript's `%` on integers: the remainder takes the sign of the dividend. */
  function JsRem(a: int, b: int): (r: int)
    requires b > 0
    ensures a >= 0 ==> r == a % b
    ensures -b < r < b
    ensures r != 0 ==> (r < 0 <==> a < 0)
    ensures r == a - b * (if a >= 0 then a / b else -((-a) / b))
  {
    if a >= 0 then a % b else -((-a) % b)
  }

  /** `formatDuration`: milliseconds as `m:ss`; None stands for a NaN or missing value. */
  function FormatDuration(millis: Option<int>): string {
    match millis
    case None => "N/A"
    case Some(ms) =>
      var totalSeconds := ms / 1000;  // Math.floor: Dafny's `/` rounds down for a positive divisor
      MinutesSeconds(totalSeconds / 60, JsRem(totalSeconds, 60))
  }

  /** For a non-negative duration the text is the whole minutes, a colon, and the remaining
      seconds as exactly two digits. */
  lemma FormatDurationDigits(ms: nat)
    ensures var seconds := (ms / 1000) % 60;
            FormatDuration(Some(ms))
            == NatToDecimal(ms / 1000 / 60) + ":" + [DigitChar(seconds / 10), DigitChar(seconds % 10)]
  {
    MinutesSecondsDigits(ms / 1000 / 60, (ms / 1000) % 60);
  }

  /** Two non-negative durations print the same text exactly when they have the same number
      of whole seconds; no duration prints as "N/A". */
  lemma FormatDurationWholeSeconds(a: nat, b: nat)
    ensures FormatDuration(Some(a)) == FormatDuration(Some(b)) <==> a / 1000 == b / 1000
    ensures FormatDuration(Some(a)) != "N/A"
  {
    if FormatDuration(Some(a)) == FormatDuration(Some(b)) {
      MinutesSecondsInjective(a / 1000 / 60, (a / 1000) % 60, b / 1000 / 60, (b / 1000) % 60);
    }
    FormatDurationDigits(a);
    var t := FormatDuration(Some(a));
    assert IsDigit(t[0]);
  }

  /** The sample values: NaN, 0 ms and 65 s. */
  lemma FormatDurationExamples()
    ensures FormatDuration(None) == "N/A"
    ensures FormatDuration(Some(0)) == "0:00"
    ensures FormatDuration(Some(65000)) == "1:05"
  {
    FormatDurationDigits(0);
    FormatDurationDigits(65000);
  }

  /** The artwork upgrade `url.replace('100x100', '500x500')`. */
  function HighResArtwork(url: string): string {
    ReplaceFirst(url, LowResToken, HighResToken)
  }

  /** The upgrade keeps the length, leaves a url without the token alone, and swaps only the
      first token, keeping everything before and after it. */
  lemma HighResArtworkSpec(url: string)
    ensures |HighResArtwork(url)| == |url|
    ensures !Contains(url, LowResToken) ==> HighResArtwork(url) == url
    ensures match IndexOf(url, LowResToken)
            case None => true
            case Some(i) =>
              var r := HighResArtwork(url);
              r == url[..i] + HighResToken + url[i + 7..]
              && (forall j: nat :: j < i ==> !OccursAt(url, LowResToken, j))
  {
    ReplaceFirstSpec(url, LowResToken, HighResToken);
  }

  /** `mapRssAlbum`. The feed's id string goes through `parseInt(id, 10)`. */
  function MapFeedAlbum(entry: FeedAlbum): (album: Album)
    requires ParseInt(entry.id).Some?
  {
    Album(ParseInt(entry.id).value, entry.name, entry.artistName, HighResArtwork(entry.artworkUrl100), [])
  }

  /** `mapSearchAlbum`. */
  function MapSearchAlbum(item: ResultItem): Album {
    Album(item.collectionId, item.collectionName, item.artistName, HighResArtwork(item.artworkUrl100), [])
  }

  /** `mapApiSong`. */
  function MapApiSong(item: ResultItem): Song {
    Song(item.trackId, item.trackName, FormatDuration(item.trackTimeMillis), item.previewUrl)
  }

  /** The song keeps the record's id, name and preview url; its duration is "N/A" exactly
      when the record has no numeric length; it is playable exactly when the record has a
      non-empty preview url. */
  lemma MapApiSongSpec(item: ResultItem)
    ensures var song := MapApiSong(item);
            song.id == item.trackId && song.title == item.trackName && song.url == item.previewUrl
            && (song.duration == "N/A" <==> item.trackTimeMillis.None?)
            && (IsPlayable(song) <==> item.previewUrl.Some? && item.previewUrl.value != "")
  {
    if item.trackTimeMillis.Some? {
      var ms := item.trackTimeMillis.value;
      var d := FormatDuration(item.trackTimeMillis);
      var m := ms / 1000 / 60;
      assert d[0] == IntToDecimal(m)[0];
      assert d[0] == '-' || IsDigit(d[0]);
    }
  }

  /** A feed whose every entry has a parseable id. */
  predicate FeedIdsParse(entries: seq<FeedAlbum>) {
    forall i :: 0 <= i < |entries| ==> ParseInt(entries[i].id).Some?
  }

  /** `fetchTopAlbums` on a decoded response. */
  function FetchTopAlbums(response: Response<FeedAlbum>): (r: Result<seq<Album>, string>)
    requires response.ok ==> FeedIdsParse(response.results)
    ensures !response.ok <==> r == Failure("Failed to fetch top albums")
    ensures r.Success? ==> |r.value| == |response.results|
    ensures r.Success? ==> forall i :: 0 <= i < |r.value| ==>
              r.value[i].coverUrl == HighResArtwork(response.results[i].artworkUrl100)
              && r.value[i].songs == []
    ensures r.Success? ==> forall i :: 0 <= i < |r.value| ==>
              r.value[i] == Album(ParseInt(response.results[i].id).value, response.results[i].name,
                                  response.results[i].artistName, HighResArtwork(response.results[i].artworkUrl100), [])
  {
    if !response.ok then Failure("Failed to fetch top albums")
    else Success(seq(|response.results|, i requires 0 <= i < |response.results| => MapFeedAlbum(response.results[i])))
  }

  predicate IsTrack(item: ResultItem) {
    item.wrapperType == "track"
  }

  predicate IsAlbumCollection(item: ResultItem) {
    item.wrapperType == "collection" && item.collectionType == "Album"
  }

  /** `fetchAlbumTracks` on a decoded response: the track records, in order, as songs. */
  function FetchAlbumTracks(response: Response<ResultItem>): Result<seq<Song>, string> {
    if !response.ok then Failure("Failed to fetch album tracks")
    else Success(Map(MapApiSong, Filter(IsTrack, response.results)))
  }

  /** The lookup keeps exactly the records whose type is "track", whatever their position,
      maps each to a song, and keeps their order; it never yields more songs than records. */
  lemma FetchAlbumTracksSpec(response: Response<ResultItem>)
    ensures !response.ok ==> FetchAlbumTracks(response) == Failure("Failed to fetch album tracks")
    ensures response.ok ==> FetchAlbumTracks(response).Success?
    ensures FetchAlbumTracks(response).Success? ==>
              var songs := FetchAlbumTracks(response).value;
              |songs| <= |response.results|
              && IsSubsequence(songs, Map(MapApiSong, response.results))
              && (forall item :: item in response.results && IsTrack(item) ==> MapApiSong(item) in songs)
              && (forall song :: song in songs ==>
                    exists item :: item in response.results && IsTrack(item) && song == MapApiSong(item))
  {
    if response.ok {
      var tracks := Filter(IsTrack, response.results);
      var songs := Map(MapApiSong, tracks);
      FilterIsSubsequence(IsTrack, response.results);
      MapSubsequence(MapApiSong, tracks, response.results);
      forall item | item in response.results && IsTrack(item) ensures MapApiSong(item) in songs {
        FilterMembership(IsTrack, response.results, item);
        var i :| 0 <= i < |tracks| && tracks[i] == item;
        assert songs[i] == MapApiSong(item);
      }
      forall song | song in songs
        ensures exists item :: item in response.results && IsTrack(item) && song == MapApiSong(item)
      {
        var i :| 0 <= i < |songs| && songs[i] == song;
        FilterMembership(IsTrack, response.results, tracks[i]);
      }
    }
  }

  /** The lookup's leading album record is dropped because of its type: behind a non-track
      record, a list of track records comes back whole and in order. */
  lemma FetchAlbumTracksSkipsAlbumRecord(info: ResultItem, tracks: seq<ResultItem>)
    requires !IsTrack(info)
    requires forall i :: 0 <= i < |tracks| ==> IsTrack(tracks[i])
    ensures FetchAlbumTracks(Response(true, [info] + tracks)) == Success(Map(MapApiSong, tracks))
  {
    assert ([info] + tracks)[1..] == tracks;
    assert Filter(IsTrack, [info] + tracks) == Filter(IsTrack, tracks);
    FilterKeepsAll(IsTrack, tracks);
  }

  /** Exactly the track records become songs: the songs are the mapping of a subsequence of
      the records that holds every copy of each track record and no other record. */
  lemma FetchAlbumTracksCount(response: Response<ResultItem>)
    requires response.ok
    ensures exists picked ::
              IsSubsequence(picked, response.results)
              && (forall item :: multiset(picked)[item] == if IsTrack(item) then multiset(response.results)[item] else 0)
              && FetchAlbumTracks(response) == Success(Map(MapApiSong, picked))
  {
    var picked := Filter(IsTrack, response.results);
    FilterIsSubsequence(IsTrack, response.results);
    FilterCounts(IsTrack, response.results);
    assert FetchAlbumTracks(response) == Success(Map(MapApiSong, picked));
  }

  /** `searchMusic(term)`. The network is the function `fetch` from the term to its decoded
      response; the empty term returns no albums before anything is fetched. */
  function SearchMusic(term: string, fetch: string -> Response<ResultItem>): Result<seq<Album>, string> {
    if term == "" then Success([])
    else
      var response := fetch(term);
      if !response.ok then Failure("Failed to perform search")
      else Success(Map(MapSearchAlbum, Filter(IsAlbumCollection, response.results)))
  }

  /** Only the empty term is short-circuited: its result does not depend on the network at
      all, while any other term, whitespace included, yields what the response says. */
  lemma SearchMusicShortCircuit(term: string, fetch1: string -> Response<ResultItem>, fetch2: string -> Response<ResultItem>)
    ensures term == "" ==> SearchMusic(term, fetch1) == SearchMusic(term, fetch2) == Success([])
    ensures term != "" ==> (SearchMusic(term, fetch1).Success? <==> fetch1(term).ok)
    ensures term != "" && fetch1(term) == fetch2(term) ==> SearchMusic(term, fetch1) == SearchMusic(term, fetch2)
  {
  }

  /** A search returns exactly the album collections of the response, in order, each mapped
      with an empty track list and upgraded artwork. */
  lemma SearchMusicSpec(term: string, fetch: string -> Response<ResultItem>)
    requires term != "" && fetch(term).ok
    ensures SearchMusic(term, fetch).Success?
    ensures var albums := SearchMusic(term, fetch).value;
            var results := fetch(term).results;
            IsSubsequence(albums, Map(MapSearchAlbum, results))
            && (forall item :: item in results && IsAlbumCollection(item) ==> MapSearchAlbum(item) in albums)
            && (forall i :: 0 <= i < |albums| ==>
                  albums[i].songs == []
                  && exists item :: item in results && IsAlbumCollection(item) && albums[i] == MapSearchAlbum(item))
  {
    var results := fetch(term).results;
    var collections := Filter(IsAlbumCollection, results);
    var albums := Map(MapSearchAlbum, collections);
    FilterIsSubsequence(IsAlbumCollection, results);
    MapSubsequence(MapSearchAlbum, collections, results);
    forall item | item in results && IsAlbumCollection(item) ensures MapSearchAlbum(item) in albums {
      FilterMembership(IsAlbumCollection, results, item);
      var i :| 0 <= i < |collections| && collections[i] == item;
      assert albums[i] == MapSearchAlbum(item);
    }
    forall i | 0 <= i < |albums|
      ensures exists item :: item in results && IsAlbumCollection(item) && albums[i] == MapSearchAlbum(item)
    {
      FilterMembership(IsAlbumCollection, results, collections[i]);
    }
  }

  /** Exactly the album-collection records become albums: the albums are the mapping of a
      subsequence of the records that holds every copy of each album-collection record and
      no other record. */
  lemma SearchMusicCount(term: string, fetch: string -> Response<ResultItem>)
    requires term != "" && fetch(term).ok
    ensures exists picked ::
              IsSubsequence(picked, fetch(term).results)
              && (forall item :: multiset(picked)[item] == if IsAlbumCollection(item) then multiset(fetch(term).results)[item] else 0)
              && SearchMusic(term, fetch) == Success(Map(MapSearchAlbum, picked))
  {
    var results := fetch(term).results;
    var picked := Filter(IsAlbumCollection, results);
    FilterIsSubsequence(IsAlbumCollection, results);
    FilterCounts(IsAlbumCollection, results);
    assert SearchMusic(term, fetch) == Success(Map(MapSearchAlbum, picked));
  }

  /** The post-processing of `findFullSongUrl`: `reply` is the model's text, or the error the
      call threw. */
  function FindFullSongUrl(reply: Result<string, string>): Option<string> {
    match reply
    case Failure(_) => None
    case Success(text) =>
      var url := Trim(text);
      if url == NotFoundToken || !StartsWith(url, "http") then None else Some(url)
  }

  /** A link comes back exactly when the call succeeded and its trimmed text starts with
      "http"; it is then that trimmed text, without surrounding whitespace. The
      "NOT_FOUND" test never decides anything, since that token does not start with "http". */
  lemma FindFullSongUrlSpec(reply: Result<string, string>)
    ensures FindFullSongUrl(reply).Some? <==> reply.Success? && StartsWith(Trim(reply.value), "http")
    ensures FindFullSongUrl(reply).Some? ==>
              var url := FindFullSongUrl(reply).value;
              url == Trim(reply.value) && StartsWith(url, "http")
              && !IsWhitespace(url[0]) && !IsWhitespace(url[|url| - 1])
  {
    assert !StartsWith(NotFoundToken, "http") by { assert NotFoundToken[0] != 'h'; }
    if reply.Success? {
      TrimSlice(reply.value);
    }
  }
}
