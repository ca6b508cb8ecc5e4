/** The application's state: the album lists, the singers, the two favourite sets, the
    dialogs, the search query and the current page, and the handlers that change them. */
module App {
  import opened Wrappers
  import opened Types
  import AddAlbumModal
  import AddSingerModal

  datatype AppState = AppState(
    searchQuery: string,
    featuredAlbums: seq<Album>,
    newReleases: seq<Album>,
    singers: seq<Singer>,
    albumModalOpen: bool,
    singerModalOpen: bool,
    favoriteAlbumIds: set<int>,
    favoriteSingerIds: set<int>,
    currentPage: Page)

  /** The state on start-up, over the seed lists. */
  function Initial(featured: seq<Album>, releases: seq<Album>, singers: seq<Singer>): AppState {
    AppState("", featured, releases, singers, false, false, {}, {}, Home)
  }

  /** Toggling an id in a favourite set: `delete` when present, `add` when absent. */
  function Toggle(ids: set<int>, id: int): set<int> {
    if id in ids then ids - {id} else ids + {id}
  }

  /** Toggling flips the id's membership and no other id's, and toggling twice is the
      identity. */
  lemma ToggleSpec(ids: set<int>, id: int)
    ensures id in Toggle(ids, id) <==> id !in ids
    ensures forall other :: other != id ==> (other in Toggle(ids, id) <==> other in ids)
    ensures Toggle(Toggle(ids, id), id) == ids
    ensures |Toggle(ids, id)| == if id in ids then |ids| - 1 else |ids| + 1
  {
  }

  /** The album `handleAddAlbum` builds: the draft and the id it is given. */
  function NewAlbum(draft: AlbumDraft, id: int): Album {
    Album(id, draft.title, draft.artist, draft.coverUrl, [])
  }

  function NewSinger(draft: SingerDraft, id: int): Singer {
    Singer(id, draft.name, draft.imageUrl)
  }

  /** `handleAddAlbum`. */
  function AddAlbum(s: AppState, draft: AlbumDraft, kind: AlbumKind, id: int): AppState {
    var album := NewAlbum(draft, id);
    if kind == Featured then s.(featuredAlbums := [album] + s.featuredAlbums, albumModalOpen := false)
    else s.(newReleases := [album] + s.newReleases, albumModalOpen := false)
  }

  /** `handleAddSinger`. */
  function AddSinger(s: AppState, draft: SingerDraft, id: int): AppState {
    s.(singers := [NewSinger(draft, id)] + s.singers, singerModalOpen := false)
  }

  function ToggleAlbumFavorite(s: AppState, id: int): AppState {
    s.(favoriteAlbumIds := Toggle(s.favoriteAlbumIds, id))
  }

  function ToggleSingerFavorite(s: AppState, id: int): AppState {
    s.(favoriteSingerIds := Toggle(s.favoriteSingerIds, id))
  }

  /** The albums handed to the browse page: featured first, then new releases. */
  function BrowseAlbums(s: AppState): seq<Album> {
    s.featuredAlbums + s.newReleases
  }

  /** The start-up state has no favourites, no open dialog, no query, and shows the home page. */
  lemma InitialSpec(featured: seq<Album>, releases: seq<Album>, singers: seq<Singer>)
    ensures var s := Initial(featured, releases, singers);
            s.favoriteAlbumIds == {} && s.favoriteSingerIds == {}
            && !s.albumModalOpen && !s.singerModalOpen
            && s.searchQuery == "" && s.currentPage == Home
            && BrowseAlbums(s) == featured + releases
  {
  }

  /** A new album goes to the front of the chosen list, the other list is untouched, the
      dialog closes, and the browse list gains exactly that album, at the front of its part. */
  lemma AddAlbumSpec(s: AppState, draft: AlbumDraft, kind: AlbumKind, id: int)
    ensures var r := AddAlbum(s, draft, kind, id);
            !r.albumModalOpen
            && (kind == Featured ==>
                  r.featuredAlbums[0] == NewAlbum(draft, id) && r.featuredAlbums[1..] == s.featuredAlbums
                  && r.newReleases == s.newReleases
                  && BrowseAlbums(r) == [NewAlbum(draft, id)] + BrowseAlbums(s))
            && (kind == NewRelease ==>
                  r.newReleases[0] == NewAlbum(draft, id) && r.newReleases[1..] == s.newReleases
                  && r.featuredAlbums == s.featuredAlbums
                  && BrowseAlbums(r) == s.featuredAlbums + [NewAlbum(draft, id)] + s.newReleases)
            && r.(featuredAlbums := s.featuredAlbums, newReleases := s.newReleases, albumModalOpen := s.albumModalOpen) == s
  {
    var r := AddAlbum(s, draft, kind, id);
    if kind == Featured {
      assert BrowseAlbums(r) == [NewAlbum(draft, id)] + (s.featuredAlbums + s.newReleases);
    }
  }

  /** A new singer goes to the front, the rest of the list is the old list, and the dialog
      closes; nothing else changes. */
  lemma AddSingerSpec(s: AppState, draft: SingerDraft, id: int)
    ensures var r := AddSinger(s, draft, id);
            |r.singers| == |s.singers| + 1 && r.singers[0] == NewSinger(draft, id)
            && r.singers[1..] == s.singers && !r.singerModalOpen
            && r.(singers := s.singers, singerModalOpen := s.singerModalOpen) == s
  {
  }

  /** Each toggle changes its own favourite set only, and toggling the same id twice restores
      the state. */
  lemma FavoritesIndependent(s: AppState, id: int)
    ensures ToggleAlbumFavorite(s, id).favoriteSingerIds == s.favoriteSingerIds
    ensures ToggleSingerFavorite(s, id).favoriteAlbumIds == s.favoriteAlbumIds
    ensures ToggleAlbumFavorite(s, id).(favoriteAlbumIds := s.favoriteAlbumIds) == s
    ensures ToggleSingerFavorite(s, id).(favoriteSingerIds := s.favoriteSingerIds) == s
    ensures ToggleAlbumFavorite(ToggleAlbumFavorite(s, id), id) == s
    ensures ToggleSingerFavorite(ToggleSingerFavorite(s, id), id) == s
  {
    ToggleSpec(s.favoriteAlbumIds, id);
    ToggleSpec(s.favoriteSingerIds, id);
  }

  class Store {
    var searchQuery: string
    var featuredAlbums: seq<Album>
    var newReleases: seq<Album>
    var singers: seq<Singer>
    var albumModalOpen: bool
    var singerModalOpen: bool
    var favoriteAlbumIds: set<int>
    var favoriteSingerIds: set<int>
    var currentPage: Page

    function State(): AppState
      reads this
    {
      AppState(searchQuery, featuredAlbums, newReleases, singers, albumModalOpen, singerModalOpen,
               favoriteAlbumIds, favoriteSingerIds, currentPage)
    }

    /** The seed lists are the application's static initial data. */
    constructor (featured: seq<Album>, releases: seq<Album>, seedSingers: seq<Singer>)
      ensures State() == Initial(featured, releases, seedSingers)
    {
      searchQuery := "";
      featuredAlbums, newReleases, singers := featured, releases, seedSingers;
      albumModalOpen, singerModalOpen := false, false;
      favoriteAlbumIds, favoriteSingerIds := {}, {};
      currentPage := Home;
    }

    /** `handleAddAlbum`; `id` stands for the `Date.now()` the source reads. */
    method HandleAddAlbum(draft: AlbumDraft, kind: AlbumKind, id: int)
      modifies this
      ensures State() == AddAlbum(old(State()), draft, kind, id)
    {
      var album := NewAlbum(draft, id);
      if kind == Featured {
        featuredAlbums := [album] + featuredAlbums;
      } else {
        newReleases := [album] + newReleases;
      }
      albumModalOpen := false;
    }

    /** `handleAddSinger`; `id` stands for the `Date.now()` the source reads. */
    method HandleAddSinger(draft: SingerDraft, id: int)
      modifies this
      ensures State() == AddSinger(old(State()), draft, id)
    {
      singers := [NewSinger(draft, id)] + singers;
      singerModalOpen := false;
    }

    /** `handleToggleAlbumFavorite`: copy the set, then delete or add. */
    method HandleToggleAlbumFavorite(id: int)
      modifies this
      ensures State() == ToggleAlbumFavorite(old(State()), id)
    {
      var favorites := favoriteAlbumIds;
      if id in favorites {
        favorites := favorites - {id};
      } else {
        favorites := favorites + {id};
      }
      favoriteAlbumIds := favorites;
    }

    /** `handleToggleSingerFavorite`: copy the set, then delete or add. */
    method HandleToggleSingerFavorite(id: int)
      modifies this
      ensures State() == ToggleSingerFavorite(old(State()), id)
    {
      var favorites := favoriteSingerIds;
      if id in favorites {
        favorites := favorites - {id};
      } else {
        favorites := favorites + {id};
      }
      favoriteSingerIds := favorites;
    }

    method SetSearchQuery(query: string)
      modifies this
      ensures State() == old(State()).(searchQuery := query)
    {
      searchQuery := query;
    }

    method Navigate(page: Page)
      modifies this
      ensures State() == old(State()).(currentPage := page)
    {
      currentPage := page;
    }

    method SetAlbumModalOpen(open: bool)
      modifies this
      ensures State() == old(State()).(albumModalOpen := open)
    {
      albumModalOpen := open;
    }

    method SetSingerModalOpen(open: bool)
      modifies this
      ensures State() == old(State()).(singerModalOpen := open)
    {
      singerModalOpen := open;
    }

    /** Submitting the add-album dialog: the form validates and resets itself, and an
        accepted album is added through `handleAddAlbum`. */
    method SubmitAlbumForm(form: AddAlbumModal.Form, id: int)
      modifies this, form
      ensures var submitted := AddAlbumModal.Submit(old(form.title), old(form.artist), old(form.coverUrl), old(form.kind));
              State() == (match submitted
                          case None => old(State())
                          case Some(sub) => AddAlbum(old(State()), sub.draft, sub.kind, id))
      ensures AddAlbumModal.Submit(old(form.title), old(form.artist), old(form.coverUrl), old(form.kind)).Some? ==>
                form.title == "" && form.artist == "" && form.coverUrl == "" && form.kind == NewRelease
      ensures AddAlbumModal.Submit(old(form.title), old(form.artist), old(form.coverUrl), old(form.kind)).None? ==>
                form.title == old(form.title) && form.artist == old(form.artist)
                && form.coverUrl == old(form.coverUrl) && form.kind == old(form.kind)
    {
      var emitted := form.HandleSubmit();
      if emitted.Some? {
        HandleAddAlbum(emitted.value.draft, emitted.value.kind, id);
      }
    }

    /** Submitting the add-singer dialog. */
    method SubmitSingerForm(form: AddSingerModal.Form, id: int)
      modifies this, form
      ensures var submitted := AddSingerModal.Submit(old(form.name), old(form.imageUrl));
              State() == (match submitted
                          case None => old(State())
                          case Some(draft) => AddSinger(old(State()), draft, id))
      ensures AddSingerModal.Submit(old(form.name), old(form.imageUrl)).Some? ==>
                form.name == "" && form.imageUrl == ""
      ensures AddSingerModal.Submit(old(form.name), old(form.imageUrl)).None? ==>
                form.name == old(form.name) && form.imageUrl == old(form.imageUrl)
    {
      var emitted := form.HandleSubmit();
      if emitted.Some? {
        HandleAddSinger(emitted.value, id);
      }
    }
  }
}
