/** The search box's filter, as the album and artist grids apply it: an album is shown when
    its lower-cased title or artist contains the lower-cased query, a singer when the
    lower-cased name does; each card is marked favourite when its id is in the favourites. */
module SearchFilter {
  import opened Text
  import opened Seqs
  import opened Types
  import opened Wrappers

  datatype AlbumCard = AlbumCard(album: Album, isFavorite: bool)

  datatype SingerCard = SingerCard(singer: Singer, isFavorite: bool)

  predicate AlbumMatches(query: string, album: Album) {
    Contains(Lower(album.title), Lower(query)) || Contains(Lower(album.artist), Lower(query))
  }

  predicate SingerMatches(query: string, singer: Singer) {
    Contains(Lower(singer.name), Lower(query))
  }

  function AlbumMatcher(query: string): Album -> bool {
    (album: Album) => AlbumMatches(query, album)
  }

  function SingerMatcher(query: string): Singer -> bool {
    (singer: Singer) => SingerMatches(query, singer)
  }

  /** `albums.filter(album => title or artist includes the query, ignoring case)`. */
  function FilterAlbums(albums: seq<Album>, query: string): seq<Album> {
    Filter(AlbumMatcher(query), albums)
  }

  /** `singers.filter(singer => name includes the query, ignoring case)`. */
  function FilterSingers(singers: seq<Singer>, query: string): seq<Singer> {
    Filter(SingerMatcher(query), singers)
  }

  /** One card per shown album, marked favourite exactly when `favoriteIds.has(album.id)`. */
  function AlbumCards(albums: seq<Album>, favoriteIds: set<int>): seq<AlbumCard> {
    Map((album: Album) => AlbumCard(album, album.id in favoriteIds), albums)
  }

  function SingerCards(singers: seq<Singer>, favoriteIds: set<int>): seq<SingerCard> {
    Map((singer: Singer) => SingerCard(singer, singer.id in favoriteIds), singers)
  }

  /** The album filter keeps every copy of a matching album and no copy of any other. */
  lemma FilterAlbumsCount(albums: seq<Album>, query: string)
    ensures forall album :: multiset(FilterAlbums(albums, query))[album] == if AlbumMatches(query, album) then multiset(albums)[album] else 0
  {
    FilterCounts(AlbumMatcher(query), albums);
  }

  /** The album filter keeps exactly the matching albums, in their order; filtering again
      changes nothing; the empty query keeps every album; nothing is kept exactly when no
      album matches. */
  lemma FilterAlbumsSpec(albums: seq<Album>, query: string)
    ensures forall album :: album in FilterAlbums(albums, query) <==> album in albums && AlbumMatches(query, album)
    ensures IsSubsequence(FilterAlbums(albums, query), albums)
    ensures FilterAlbums(FilterAlbums(albums, query), query) == FilterAlbums(albums, query)
    ensures query == "" ==> FilterAlbums(albums, query) == albums
    ensures FilterAlbums(albums, query) == [] <==> forall i :: 0 <= i < |albums| ==> !AlbumMatches(query, albums[i])
  {
    var p := AlbumMatcher(query);
    forall album ensures album in FilterAlbums(albums, query) <==> album in albums && AlbumMatches(query, album) {
      FilterMembership(p, albums, album);
    }
    FilterIsSubsequence(p, albums);
    FilterIdempotent(p, albums);
    FilterEmpty(p, albums);
    if query == "" {
      forall i | 0 <= i < |albums| ensures p(albums[i]) {
        ContainsTrivial(Lower(albums[i].title));
      }
      FilterKeepsAll(p, albums);
    }
  }

  /** The singer filter keeps every copy of a matching singer and no copy of any other. */
  lemma FilterSingersCount(singers: seq<Singer>, query: string)
    ensures forall singer :: multiset(FilterSingers(singers, query))[singer] == if SingerMatches(query, singer) then multiset(singers)[singer] else 0
  {
    FilterCounts(SingerMatcher(query), singers);
  }

  /** The singer filter keeps exactly the matching singers, in their order; filtering again
      changes nothing; the empty query keeps every singer; nothing is kept exactly when no
      singer matches. */
  lemma FilterSingersSpec(singers: seq<Singer>, query: string)
    ensures forall singer :: singer in FilterSingers(singers, query) <==> singer in singers && SingerMatches(query, singer)
    ensures IsSubsequence(FilterSingers(singers, query), singers)
    ensures FilterSingers(FilterSingers(singers, query), query) == FilterSingers(singers, query)
    ensures query == "" ==> FilterSingers(singers, query) == singers
    ensures FilterSingers(singers, query) == [] <==> forall i :: 0 <= i < |singers| ==> !SingerMatches(query, singers[i])
  {
    var p := SingerMatcher(query);
    forall singer ensures singer in FilterSingers(singers, query) <==> singer in singers && SingerMatches(query, singer) {
      FilterMembership(p, singers, singer);
    }
    FilterIsSubsequence(p, singers);
    FilterIdempotent(p, singers);
    FilterEmpty(p, singers);
    if query == "" {
      forall i | 0 <= i < |singers| ensures p(singers[i]) {
        ContainsTrivial(Lower(singers[i].name));
      }
      FilterKeepsAll(p, singers);
    }
  }

  /** The filters ignore the query's case: a query and its lower-cased form show the same. */
  lemma QueryCaseIgnored(albums: seq<Album>, singers: seq<Singer>, query: string)
    ensures FilterAlbums(albums, Lower(query)) == FilterAlbums(albums, query)
    ensures FilterSingers(singers, Lower(query)) == FilterSingers(singers, query)
  {
    LowerIdempotent(query);
    FilterAgreeing(AlbumMatcher(Lower(query)), AlbumMatcher(query), albums);
    FilterAgreeing(SingerMatcher(Lower(query)), SingerMatcher(query), singers);
  }

  /** Each card shows the album at its position and is marked favourite exactly when the
      album's id is a favourite. */
  lemma AlbumCardsSpec(albums: seq<Album>, favoriteIds: set<int>)
    ensures |AlbumCards(albums, favoriteIds)| == |albums|
    ensures forall i :: 0 <= i < |albums| ==>
              AlbumCards(albums, favoriteIds)[i].album == albums[i]
              && (AlbumCards(albums, favoriteIds)[i].isFavorite <==> albums[i].id in favoriteIds)
  {
  }

  /** Each card shows the singer at its position and is marked favourite exactly when the
      singer's id is a favourite. */
  lemma SingerCardsSpec(singers: seq<Singer>, favoriteIds: set<int>)
    ensures |SingerCards(singers, favoriteIds)| == |singers|
    ensures forall i :: 0 <= i < |singers| ==>
              SingerCards(singers, favoriteIds)[i].singer == singers[i]
              && (SingerCards(singers, favoriteIds)[i].isFavorite <==> singers[i].id in favoriteIds)
  {
  }

  // ---------------------------------------------------------------------------
  // A rendered grid: the cards, or the "nothing found" message
  // ---------------------------------------------------------------------------

  datatype AlbumGrid = AlbumGrid(cards: seq<AlbumCard>, emptyMessage: Option<string>)

  datatype SingerGrid = SingerGrid(cards: seq<SingerCard>, emptyMessage: Option<string>)

  function CardAlbums(cards: seq<AlbumCard>): seq<Album> {
    Map((card: AlbumCard) => card.album, cards)
  }

  function CardSingers(cards: seq<SingerCard>): seq<Singer> {
    Map((card: SingerCard) => card.singer, cards)
  }

  /** `filteredAlbums.length > 0 ? <cards> : <p>{emptyText}</p>`. */
  function RenderAlbumGrid(query: string, albums: seq<Album>, favoriteIds: set<int>, emptyText: string): AlbumGrid {
    var shown := FilterAlbums(albums, query);
    AlbumGrid(AlbumCards(shown, favoriteIds), if |shown| > 0 then None else Some(emptyText))
  }

  function RenderSingerGrid(query: string, singers: seq<Singer>, favoriteIds: set<int>, emptyText: string): SingerGrid {
    var shown := FilterSingers(singers, query);
    SingerGrid(SingerCards(shown, favoriteIds), if |shown| > 0 then None else Some(emptyText))
  }

  /** What a grid of albums shows for a query: exactly the matching albums, in their order and
      with every copy of each,
      each marked favourite exactly when its id is a favourite; every album for the empty
      query; and the message, instead of cards, exactly when nothing matches. */
  ghost predicate ShowsAlbumGrid(g: AlbumGrid, query: string, albums: seq<Album>, favoriteIds: set<int>, emptyText: string) {
    IsSubsequence(CardAlbums(g.cards), albums)
    && (forall i :: 0 <= i < |g.cards| ==>
          AlbumMatches(query, g.cards[i].album) && (g.cards[i].isFavorite <==> g.cards[i].album.id in favoriteIds))
    && (forall album :: album in albums && AlbumMatches(query, album) ==> album in CardAlbums(g.cards))
    && (forall album :: multiset(CardAlbums(g.cards))[album] == if AlbumMatches(query, album) then multiset(albums)[album] else 0)
    && (query == "" ==> CardAlbums(g.cards) == albums)
    && (g.emptyMessage.Some? <==> g.cards == [])
    && (g.emptyMessage.Some? ==> g.emptyMessage.value == emptyText)
    && (g.cards == [] <==> forall i :: 0 <= i < |albums| ==> !AlbumMatches(query, albums[i]))
  }

  /** The same for a grid of singers. */
  ghost predicate ShowsSingerGrid(g: SingerGrid, query: string, singers: seq<Singer>, favoriteIds: set<int>, emptyText: string) {
    IsSubsequence(CardSingers(g.cards), singers)
    && (forall i :: 0 <= i < |g.cards| ==>
          SingerMatches(query, g.cards[i].singer) && (g.cards[i].isFavorite <==> g.cards[i].singer.id in favoriteIds))
    && (forall singer :: singer in singers && SingerMatches(query, singer) ==> singer in CardSingers(g.cards))
    && (forall singer :: multiset(CardSingers(g.cards))[singer] == if SingerMatches(query, singer) then multiset(singers)[singer] else 0)
    && (query == "" ==> CardSingers(g.cards) == singers)
    && (g.emptyMessage.Some? <==> g.cards == [])
    && (g.emptyMessage.Some? ==> g.emptyMessage.value == emptyText)
    && (g.cards == [] <==> forall i :: 0 <= i < |singers| ==> !SingerMatches(query, singers[i]))
  }

  lemma AlbumGridSpec(query: string, albums: seq<Album>, favoriteIds: set<int>, emptyText: string)
    ensures ShowsAlbumGrid(RenderAlbumGrid(query, albums, favoriteIds, emptyText), query, albums, favoriteIds, emptyText)
  {
    var shown := FilterAlbums(albums, query);
    var g := RenderAlbumGrid(query, albums, favoriteIds, emptyText);
    FilterAlbumsSpec(albums, query);
    FilterAlbumsCount(albums, query);
    AlbumCardsSpec(shown, favoriteIds);
    assert CardAlbums(g.cards) == shown;
    forall i | 0 <= i < |g.cards| ensures AlbumMatches(query, g.cards[i].album) {
      assert shown[i] in shown;
    }
  }

  lemma SingerGridSpec(query: string, singers: seq<Singer>, favoriteIds: set<int>, emptyText: string)
    ensures ShowsSingerGrid(RenderSingerGrid(query, singers, favoriteIds, emptyText), query, singers, favoriteIds, emptyText)
  {
    var shown := FilterSingers(singers, query);
    var g := RenderSingerGrid(query, singers, favoriteIds, emptyText);
    FilterSingersSpec(singers, query);
    FilterSingersCount(singers, query);
    SingerCardsSpec(shown, favoriteIds);
    assert CardSingers(g.cards) == shown;
    forall i | 0 <= i < |g.cards| ensures SingerMatches(query, g.cards[i].singer) {
      assert shown[i] in shown;
    }
  }

  /** The description of a grid leaves no freedom: any album grid it admits shows exactly the
      filtered albums, in the filter's order. */
  lemma {:induction false} AlbumGridShowsFilter(g: AlbumGrid, query: string, albums: seq<Album>, favoriteIds: set<int>, emptyText: string)
    requires ShowsAlbumGrid(g, query, albums, favoriteIds, emptyText)
    ensures CardAlbums(g.cards) == FilterAlbums(albums, query)
  {
    FilterUnique(AlbumMatcher(query), albums, CardAlbums(g.cards));
  }

  /** The same for a grid of singers. */
  lemma {:induction false} SingerGridShowsFilter(g: SingerGrid, query: string, singers: seq<Singer>, favoriteIds: set<int>, emptyText: string)
    requires ShowsSingerGrid(g, query, singers, favoriteIds, emptyText)
    ensures CardSingers(g.cards) == FilterSingers(singers, query)
  {
    FilterUnique(SingerMatcher(query), singers, CardSingers(g.cards));
  }
}
