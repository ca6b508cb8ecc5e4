/** The home page's "Featured Albums" section. */
module FeaturedAlbums {
  import opened SearchFilter
  import opened Types

  const EmptyMessage := "No featured albums found matching your search."

  /** The section's grid for the search query, the featured albums and the favourite ids. */
  function Render(query: string, albums: seq<Album>, favoriteIds: set<int>): (view: AlbumGrid)
    ensures ShowsAlbumGrid(view, query, albums, favoriteIds, EmptyMessage)
  {
    AlbumGridSpec(query, albums, favoriteIds, EmptyMessage);
    RenderAlbumGrid(query, albums, favoriteIds, EmptyMessage)
  }
}
