/** The home page's "Browse Artists" section: the favourites badge and the artist grid. */
module SingersSection {
  import opened Wrappers
  import opened SearchFilter
  import opened Types

  const EmptyMessage := "No artists found matching your search."

  datatype View = View(badge: Option<nat>, grid: SingerGrid)

  /** The badge shows the number of favourite singers, and only when there is one. */
  function Badge(favoriteIds: set<int>): (badge: Option<nat>)
    ensures badge.Some? <==> favoriteIds != {}
    ensures badge.Some? ==> badge.value == |favoriteIds| && badge.value > 0
  {
    if |favoriteIds| > 0 then Some(|favoriteIds|) else None
  }

  function Render(query: string, singers: seq<Singer>, favoriteIds: set<int>): (view: View)
    ensures view.badge == Badge(favoriteIds)
    ensures ShowsSingerGrid(view.grid, query, singers, favoriteIds, EmptyMessage)
  {
    SingerGridSpec(query, singers, favoriteIds, EmptyMessage);
    View(Badge(favoriteIds), RenderSingerGrid(query, singers, favoriteIds, EmptyMessage))
  }
}
