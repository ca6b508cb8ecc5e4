# Music store front end — verified model

A Dafny model of the logic inside a React music-discovery front end that sits on a public
music catalog. The model covers:

- the catalog client. It shapes decoded feed, lookup and search responses into albums and
  songs. This includes the millisecond `m:ss` duration text, the `100x100` → `500x500`
  artwork upgrade, the empty-term search short-circuit and the post-processing of the AI
  "full song" lookup (`Api`).
- the player bar (`MusicPlayer`). This covers the playback effect that binds a preview url
  to the audio element, the `canplay` event that starts it, seeking, volume and mute, the
  playlist toggle and the `m:ss` time display.
- the application store (`App`). It holds the album lists, the singers, the favourite sets,
  the dialogs, the query and the current page.
- the add-album and add-singer forms (`AddAlbumModal`, `AddSingerModal`).
- the search filter as the browse page and the three home-page sections apply it
  (`SearchFilter`, `BrowsePage`, `FeaturedAlbums`, `NewReleases`, `SingersSection`).

The shared helpers are:

- `Text`: the JavaScript string built-ins the code uses, over `seq<char>`.
- `Seqs`: `filter` and `map`.
- `Types`: the record shapes.
- `Wrappers`: `Option` and `Result`.

The pure parts are functions with lemmas. The parts that change state are classes:
`MusicPlayer.Player`, `App.Store`, `AddAlbumModal.Form` and `AddSingerModal.Form`. Each
method's `ensures` ties the new state to a step function of the old state. The step
functions carry the proved properties.

Conventions:

- NaN (and a missing number) is `None`.
- JavaScript's truncating `%` is written out (`Api.JsRem`, `MusicPlayer.JsRealRem`).
- `trim` strips exactly the ECMAScript WhiteSpace and LineTerminator code points.
- `toLowerCase` is modelled on ASCII letters only.
- Two behaviours of the code are easy to misread, and the model keeps them as written:
  - Search short-circuits only the empty string. A whitespace-only term is still sent
    (services/api.ts:65).
  - Unmuting restores `lastVolume`. That value is always positive, so the fallback to full
    volume is never taken (components/MusicPlayer.tsx:118).

## Model

| member | source | states |
|---|---|---|
| Text.LeadingWhitespace | services/api.ts:92 | the whitespace run `trim` drops at the start: all whitespace, followed by a non-whitespace character or the end |
| Text.TrailingWhitespace | services/api.ts:92 | the whitespace run `trim` drops at the end, preceded by a non-whitespace character or the start |
| Text.TrimSlice | services/api.ts:92 | `trim` keeps a contiguous middle part, drops only whitespace on both sides, and the kept part neither starts nor ends with whitespace |
| Text.BlankIffAllWhitespace | components/AddAlbumModal.tsx:35 | `!x.trim()` holds exactly when every character of `x` is whitespace (the empty string included) |
| Text.TrimIdempotent | services/api.ts:92 | trimming twice is trimming once |
| Text.LowerIdempotent | pages/BrowsePage.tsx:28 | lower-casing keeps the length, leaves no ASCII capital, and is idempotent |
| Text.IndexOf | pages/BrowsePage.tsx:28 | `indexOf`/`includes`: the result is an occurrence and no earlier position is one; None means no occurrence anywhere |
| Text.ContainsTrivial | pages/BrowsePage.tsx:28 | every string includes the empty string and itself |
| Text.ReplaceFirstSpec | services/api.ts:20 | `replace` with a string pattern: unchanged without an occurrence; otherwise only the first occurrence is swapped, the text around it is kept, and an equal-length replacement keeps the length |
| Text.NatToDecimal | services/api.ts:12 | a number prints as at least one digit with no leading zero except for 0 |
| Text.DecimalRoundTrip | services/api.ts:12 | reading the printed digits back gives the number |
| Text.ParseIntRoundTrip | services/api.ts:17 | `parseInt(s, 10)` reads back every printed integer, sign included |
| Text.MinutesSecondsDigits | services/api.ts:12 | for minutes >= 0 and seconds in 0..59 the `m:ss` template yields the minutes, a colon and exactly two second digits |
| Text.MinutesSecondsInjective | components/MusicPlayer.tsx:126 | distinct (minutes, seconds) pairs in range print differently |
| Seqs.Filter | services/api.ts:60 | `filter` never yields more elements than it is given |
| Seqs.FilterMembership | services/api.ts:60 | an element is kept exactly when it is in the input and satisfies the predicate |
| Seqs.FilterIsSubsequence | services/api.ts:60 | `filter` keeps the input order |
| Seqs.FilterIdempotent | pages/BrowsePage.tsx:27-30 | filtering twice with the same predicate is filtering once |
| Seqs.FilterKeepsAll | pages/BrowsePage.tsx:27-30 | the filter keeps everything exactly when every element satisfies the predicate |
| Seqs.FilterEmpty | pages/BrowsePage.tsx:43 | the filter keeps nothing exactly when no element satisfies the predicate |
| Seqs.FilterConcat | App.tsx:91 | filtering a concatenation filters each part, in order |
| Seqs.FilterAgreeing | pages/BrowsePage.tsx:27-30 | two predicates that agree on every element select the same elements |
| Seqs.FilterCount | services/api.ts:60 | `filter` keeps every copy of an element that satisfies the predicate and no copy of one that does not |
| Seqs.FilterUnique | pages/BrowsePage.tsx:27-30 | order and counts determine the filter: a subsequence holding every copy of each selected element and nothing else is the filter's result |
| Seqs.MapSubsequence | services/api.ts:59-61 | `map` after `filter` keeps the selected records' order |
| Api.JsRem | services/api.ts:11 | JavaScript `%`: equals the mathematical remainder for a non-negative dividend, is smaller than the divisor in size, takes the dividend's sign, and is the dividend minus the divisor times the quotient truncated toward zero |
| Api.FormatDurationDigits | services/api.ts:9-12 | a duration of ms >= 0 prints as `(ms div 1000) div 60`, a colon, and `(ms div 1000) mod 60` as two digits |
| Api.FormatDurationWholeSeconds | services/api.ts:7-12 | two non-negative durations print alike exactly when they have the same whole seconds, and never as "N/A" |
| Api.FormatDurationExamples | services/api.ts:7-12 | NaN gives "N/A", 0 gives "0:00", 65000 gives "1:05" |
| Api.HighResArtworkSpec | services/api.ts:20 | the artwork upgrade keeps the length, leaves a url without `100x100` alone, and replaces only the first `100x100` by `500x500` |
| Api.MapApiSongSpec | services/api.ts:34-39 | a song keeps the record's id, name and preview url; its duration is "N/A" exactly when the length is missing; it is playable exactly when the preview url is non-empty |
| Api.FetchTopAlbums | services/api.ts:41-49 | a failed response yields the "Failed to fetch top albums" error; otherwise one album per feed entry, in order, each with the entry's parsed id, name and artist, upgraded artwork and no songs |
| Api.FetchAlbumTracksSpec | services/api.ts:51-62 | a failed response yields the error; otherwise exactly the "track" records, whatever their position, become songs in their order, never more than the records |
| Api.FetchAlbumTracksSkipsAlbumRecord | services/api.ts:58-61 | the leading album record is dropped for its type, and the track records behind it come back whole and in order |
| Api.FetchAlbumTracksCount | services/api.ts:58-61 | the songs are the mapping of a subsequence of the records that holds every copy of each "track" record and no other record |
| Api.SearchMusicShortCircuit | services/api.ts:64-65 | the empty term gives no albums whatever the network would answer; any other term, whitespace included, gives what its response says |
| Api.SearchMusicSpec | services/api.ts:72-74 | a search yields exactly the "collection"/"Album" records, in order, each with an empty track list |
| Api.SearchMusicCount | services/api.ts:72-74 | the albums are the mapping of a subsequence of the records that holds every copy of each "collection"/"Album" record and no other record |
| Api.FindFullSongUrlSpec | services/api.ts:92-103 | a link comes back exactly when the call succeeded and the trimmed text starts with "http"; it is then the trimmed text; a thrown error gives null |
| MusicPlayer.EffectKeepsInvariant | components/MusicPlayer.tsx:66-69 | every effect run leaves at most one `canplay` listener, the one its own cleanup removes |
| MusicPlayer.EffectNewSource | components/MusicPlayer.tsx:55-64 | with a new preview url the effect binds it as a loadable source, does not play, and registers one listener that carries this run's intent |
| MusicPlayer.EffectMissingPreview | components/MusicPlayer.tsx:55-64 | a track without a preview url binds "undefined" on every run (`undefined` never equals the bound source), never becomes ready, so `canplay` plays nothing, and each later run rebinds it with a fresh listener |
| MusicPlayer.EffectSameSource | components/MusicPlayer.tsx:70-77 | with no track, or a track whose url is the bound source, the source is not reassigned, `isPlaying` plays or pauses directly, and no listener is left |
| MusicPlayer.CanPlayHonoursLatestIntent | components/MusicPlayer.tsx:59-64 | after a run, `canplay` starts playback exactly when that run bound a new, loadable source intending to play (or it already plays); a track without a preview url never plays |
| MusicPlayer.PauseBeforeReadyWins | components/MusicPlayer.tsx:36-78 | a pause given while the new source loads wins over the earlier intent to play |
| MusicPlayer.SeekOnlyMoves | components/MusicPlayer.tsx:99-103 | seeking changes the position and nothing else |
| MusicPlayer.VolumeInvPreserved | components/MusicPlayer.tsx:105-120 | volume in [0, 1] and a positive remembered volume hold initially and after every volume change and mute toggle |
| MusicPlayer.MuteUnmuteRestores | components/MusicPlayer.tsx:113-120 | muting a positive volume then unmuting restores it; unmuting always restores the remembered volume |
| MusicPlayer.FormatTimeParts | components/MusicPlayer.tsx:122-127 | for t >= 0 the display is the whole minutes and the remaining seconds (0..59, two digits), which together give the whole seconds of t |
| MusicPlayer.FormatTimeExamples | components/MusicPlayer.tsx:123 | NaN and 0 show "0:00"; 65.4 s shows "1:05" |
| MusicPlayer.Player.constructor | components/MusicPlayer.tsx:28-32 | the player starts with no source, volume 1, remembered volume 1, zero progress and duration, and the playlist hidden |
| MusicPlayer.Player.Effect | components/MusicPlayer.tsx:36-78 | the playback effect performs one `RunEffect` step and keeps the listener and volume invariants |
| MusicPlayer.Player.OnCanPlay | components/MusicPlayer.tsx:59-63 | the `canplay` event performs the `CanPlay` step |
| MusicPlayer.Player.HandleSeek | components/MusicPlayer.tsx:99-103 | `handleSeek` writes only the audio position |
| MusicPlayer.Player.HandleTimeUpdate | components/MusicPlayer.tsx:87-91 | the shown progress becomes the element's position |
| MusicPlayer.Player.HandleLoadedMetadata | components/MusicPlayer.tsx:93-97 | the shown duration becomes the element's duration |
| MusicPlayer.Player.HandleVolumeChange | components/MusicPlayer.tsx:105-111 | sets the volume and remembers it only when positive |
| MusicPlayer.Player.HandleToggleMute | components/MusicPlayer.tsx:113-120 | performs the `ToggleMute` step and keeps the remembered volume positive |
| MusicPlayer.Player.TogglePlaylist | components/MusicPlayer.tsx:129-131 | negates the playlist's visibility |
| MusicPlayer.PauseWhileLoading | components/MusicPlayer.tsx:55-78 | on a player: choose a new track to play, pause before it is ready, fire `canplay`; it stays paused on the new source |
| SearchFilter.FilterAlbumsCount | pages/BrowsePage.tsx:27-30 | the album filter keeps every copy of a matching album and no copy of any other |
| SearchFilter.FilterSingersCount | pages/BrowsePage.tsx:32-34 | the singer filter keeps every copy of a matching singer and no copy of any other |
| SearchFilter.FilterAlbumsSpec | pages/BrowsePage.tsx:27-30 | the album filter keeps exactly the albums whose lower-cased title or artist contains the lower-cased query, in order; it is idempotent; the empty query keeps all |
| SearchFilter.FilterSingersSpec | pages/BrowsePage.tsx:32-34 | the singer filter keeps exactly the singers whose lower-cased name contains the lower-cased query, in order; it is idempotent; the empty query keeps all |
| SearchFilter.QueryCaseIgnored | pages/BrowsePage.tsx:28-33 | a query and its lower-cased form select the same albums and singers |
| SearchFilter.AlbumCardsSpec | pages/BrowsePage.tsx:45-49 | each album card shows its album and is favourite exactly when the id is in the favourite set |
| SearchFilter.SingerCardsSpec | pages/BrowsePage.tsx:64-68 | each singer card shows its singer and is favourite exactly when the id is in the favourite set |
| SearchFilter.AlbumGridSpec | pages/BrowsePage.tsx:43-57 | an album grid shows exactly the matching albums in order, every copy of each, with their favourite flags, and shows the message instead exactly when nothing matches |
| SearchFilter.SingerGridSpec | pages/BrowsePage.tsx:62-75 | the same for a singer grid |
| SearchFilter.AlbumGridShowsFilter | pages/BrowsePage.tsx:43-57 | the description of an album grid is complete: any grid it admits shows exactly the filtered albums |
| SearchFilter.SingerGridShowsFilter | pages/BrowsePage.tsx:62-75 | the same for a singer grid |
| FeaturedAlbums.Render | components/FeaturedAlbums.tsx:13-35 | the featured section shows the matching albums in order, every copy of each, with favourite flags, all of them for the empty query, or its "no featured albums" message exactly when none match |
| NewReleases.Render | components/NewReleases.tsx:13-35 | the same for the new releases and their message |
| SingersSection.Badge | components/SingersSection.tsx:21-25 | the badge appears exactly when some singer is a favourite, and shows how many |
| SingersSection.Render | components/SingersSection.tsx:13-40 | the artists section shows the badge and the matching singers in order, every copy of each, with favourite flags, or its message exactly when none match |
| BrowsePage.Render | pages/BrowsePage.tsx:27-76 | the browse page shows both grids, each with exactly the matching entries in order and every copy of each, with their favourite sets and their two messages |
| BrowsePage.BrowseListSplits | App.tsx:91 | over the featured albums followed by the new releases, the browse page shows the featured matches first, then the new-release matches |
| AddAlbumModal.SubmitSpec | components/AddAlbumModal.tsx:35-39 | the album form is rejected exactly when a field is whitespace only; an accepted form is emitted untrimmed with its list |
| AddAlbumModal.Form.constructor | components/AddAlbumModal.tsx:13-16 | the form starts with empty fields and the new-releases list |
| AddAlbumModal.Form.SetTitle | components/AddAlbumModal.tsx:78 | the title field takes the typed value |
| AddAlbumModal.Form.SetArtist | components/AddAlbumModal.tsx:89 | the artist field takes the typed value |
| AddAlbumModal.Form.SetCoverUrl | components/AddAlbumModal.tsx:100 | the cover url field takes the typed value |
| AddAlbumModal.Form.SetKind | components/AddAlbumModal.tsx:111-115 | the radio buttons choose the list |
| AddAlbumModal.Form.HandleSubmit | components/AddAlbumModal.tsx:33-45 | a rejected submit emits nothing and keeps the fields; an accepted one emits the fields and resets them to empty and new-releases |
| AddSingerModal.SubmitSpec | components/AddSingerModal.tsx:33-37 | the singer form is rejected exactly when a field is whitespace only; an accepted form is emitted untrimmed |
| AddSingerModal.Form.constructor | components/AddSingerModal.tsx:13-14 | the form starts with empty fields |
| AddSingerModal.Form.SetName | components/AddSingerModal.tsx:73 | the name field takes the typed value |
| AddSingerModal.Form.SetImageUrl | components/AddSingerModal.tsx:84 | the image url field takes the typed value |
| AddSingerModal.Form.HandleSubmit | components/AddSingerModal.tsx:31-40 | a rejected submit emits nothing and keeps the fields; an accepted one emits them and empties the form |
| App.ToggleSpec | App.tsx:47-57 | toggling flips exactly the given id's membership, changes the size by one, and twice is the identity |
| App.InitialSpec | App.tsx:15-23 | start-up has no favourites, no open dialog, an empty query and the home page |
| App.AddAlbumSpec | App.tsx:25-36 | a new album goes to the front of the chosen list only, the dialog closes, and the browse list gains exactly that album |
| App.AddSingerSpec | App.tsx:38-45 | a new singer goes to the front, the rest is the old list, the dialog closes, and nothing else changes |
| App.FavoritesIndependent | App.tsx:47-69 | each toggle changes only its own favourite set, and toggling an id twice restores the state |
| App.Store.constructor | App.tsx:15-23 | the store starts in the initial state over the seed lists |
| App.Store.HandleAddAlbum | App.tsx:25-36 | performs the `AddAlbum` step |
| App.Store.HandleAddSinger | App.tsx:38-45 | performs the `AddSinger` step |
| App.Store.HandleToggleAlbumFavorite | App.tsx:47-57 | performs the album-favourite toggle and nothing else |
| App.Store.HandleToggleSingerFavorite | App.tsx:59-69 | performs the singer-favourite toggle and nothing else |
| App.Store.SetSearchQuery | App.tsx:111-112 | the header's search box sets only the query |
| App.Store.Navigate | App.tsx:114-115 | navigation sets only the current page |
| App.Store.SetAlbumModalOpen | App.tsx:113 | opening or closing the album dialog changes only that flag |
| App.Store.SetSingerModalOpen | App.tsx:84 | opening or closing the singer dialog changes only that flag |
| App.Store.SubmitAlbumForm | App.tsx:121-125 | an album-form submit changes the store exactly as `handleAddAlbum` on the accepted values and clears the form back to a new release, or changes neither the store nor the form |
| App.Store.SubmitSingerForm | App.tsx:126-130 | a singer-form submit changes the store exactly as `handleAddSinger` on the accepted values and clears the form, or changes neither the store nor the form |

## Left out

- Network I/O is not modelled. This covers `fetch`, the CORS proxy prefix, `encodeURIComponent` and the request urls. Each catalog operation receives the decoded response (`ok` and the result list). Search receives the network as a function from term to response.
- The generative-AI request is not modelled. `Api.FindFullSongUrl` receives the reply text or the thrown error.
- `Api.FetchTopAlbums`: requires every feed id to parse with `parseInt`. For an id without a leading number the source builds an album whose id is NaN. The model's integer ids cannot hold NaN.
- `Api.MapApiSongSpec`: durations are whole milliseconds (`int`). A fractional `trackTimeMillis` is not modelled.
- The browser's media internals are not modelled: buffering, timing, the `play()` promise and its AbortError filter. `play()` and `pause()` are abstract commands that set `playing`. Assigning `src` stops and rewinds the element, as the HTML load algorithm does. `canplay` is an explicit event.
- `MusicPlayer.Player.Effect`: the early return when the audio ref is null is not modelled. The effect only runs after the `<audio>` element is mounted.
- The volume effect (`audio.volume = volume`) is not modelled separately. The element's volume is taken to be the component's `volume`.
- `MusicPlayer.FormatTimeParts`: times are reals, so Infinity and float rounding are not represented.
- `MusicPlayer.Player.Effect`: source urls are compared as plain strings, with no url normalisation. Assigning `undefined` is stored as the text "undefined", not as the url the browser resolves it to; since `undefined` never equals any source text, the comparison result is the same.
- JavaScript numbers are doubles; the model's `int` is unbounded. The two differ above 2^53, and number-to-string switches to exponent notation from 1e21. Ids, `trackTimeMillis` and the printed minutes are affected.
- `handleFindFullSong` is not modelled: `window.open`, `alert` and the busy flag are browser side effects. The `alert` calls of the forms are not modelled either.
- Ids from `Date.now()` are a parameter of the add methods. Their uniqueness is not claimed.
- The Escape-key listeners of the dialogs are not modelled: they are DOM event plumbing.
- Pure presentation is not modelled: headers, cards, hero, footer, static pages, icons and animation. The seed data of `constants.ts` is passed to `App.Store`'s constructor as parameters.
- Catalog albums carry a `songs` list. An album added through the form has no `songs` property in the source. The model gives it the empty list.
- `toLowerCase` is modelled on ASCII letters only. Full Unicode case mapping is not modelled.
- Next/previous track arithmetic, playlist replacement and search debouncing are not modelled. The player only receives them as callbacks, and their code is not part of this model.
