/** The browse page: every album (featured first, then new releases) and every singer,
    both filtered by the search query. */
module BrowsePage {
  import opened Seqs
  import opened SearchFilter
  import opened Types

  const NoAlbumsMessage := "No albums found matching your search."
  const NoArtistsMessage := "No artists found matching your search."

  datatype View = View(albums: AlbumGrid, artists: SingerGrid)

  function Render(query: string, albums: seq<Album>, singers: seq<Singer>,
                  favoriteAlbumIds: set<int>, favoriteSingerIds: set<int>): (view: View)
    ensures ShowsAlbumGrid(view.albums, query, albums, favoriteAlbumIds, NoAlbumsMessage)
    ensures ShowsSingerGrid(view.artists, query, singers, favoriteSingerIds, NoArtistsMessage)
  {
    AlbumGridSpec(query, albums, favoriteAlbumIds, NoAlbumsMessage);
    SingerGridSpec(query, singers, favoriteSingerIds, NoArtistsMessage);
    View(RenderAlbumGrid(query, albums, favoriteAlbumIds, NoAlbumsMessage),
         RenderSingerGrid(query, singers, favoriteSingerIds, NoArtistsMessage))
  }

  /** The page receives the featured albums followed by the new releases, so it shows the
      featured matches first and then the new-release matches. */
  lemma BrowseListSplits(featured: seq<Album>, releases: seq<Album>, query: string)
    ensures FilterAlbums(featured + releases, query) == FilterAlbums(featured, query) + FilterAlbums(releases, query)
  {
    FilterConcat(AlbumMatcher(query), featured, releases);
  }
}
