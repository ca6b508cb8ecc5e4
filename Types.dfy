/** The shapes the front end passes around: albums, songs, singers, the forms' drafts
    (an album or singer without its id) and the page names. */
module Types {
  import opened Wrappers

  /** A track of an album; `url` is the 30-second preview, absent when the catalog has none. */
  datatype Song = Song(id: int, title: string, duration: string, url: Option<string>)

  /** An album; catalog albums carry an (initially empty) track list. */
  datatype Album = Album(id: int, title: string, artist: string, coverUrl: string, songs: seq<Song>)

  datatype Singer = Singer(id: int, name: string, imageUrl: string)

  /** What the add-album form emits: an album without its id. */
  datatype AlbumDraft = AlbumDraft(title: string, artist: string, coverUrl: string)

  /** What the add-singer form emits: a singer without its id. */
  datatype SingerDraft = SingerDraft(name: string, imageUrl: string)

  /** The list a new album goes to: `'featured'` or `'new'`. */
  datatype AlbumKind = Featured | NewRelease

  datatype Page = Home | Browse | Charts | Contact

  /** A track button is enabled only when the song's url is truthy (not missing, not empty). */
  predicate IsPlayable(song: Song) {
    song.url.Some? && song.url.value != ""
  }
}
