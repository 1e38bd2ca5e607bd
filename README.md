# Music player session and catalog, modelled in Dafny

This project models the logic of a small music-player web application: a
React front end that keeps one playback session in a reducer, and an Express
service that serves a constant catalog of eight songs and four playlists.

- **Session** (`MusicContext`): the `Song`, `Playlist` and session-state
  records, the eleven action kinds, the reducer `musicReducer` (`Reduce`), the
  initial state, and the `useReducer` holder as a `Store` class whose `Dispatch`
  replaces the state with the reducer's result. `Run` folds the reducer over a
  list of actions, so a handler that dispatches several actions in a row is
  specified by `Run` of that list. The audio element's three listeners are
  modelled as external events (`MediaEvent`) mapped to actions.
- **Catalog resolution** (`Catalog`): `ids.map(id => songs.find(...)).filter(Boolean)`,
  used both by the playlists page and by the service.
- **Time text** (`TimeFormat`): `formatDuration` of the playlists and search
  pages, over whole seconds, and `formatTime` of the mini player, over real
  seconds, with JavaScript's `Math.floor` and truncating `%`.
- **Pages**: the play handlers shared by three pages (`Playback`), the
  playlists page's song lists and total length (`Playlists`), the search
  filter (`Search`), the home page's recently-played row (`Home`), and the mini
  player's rendering guard, buttons and volume slider (`MiniPlayer`).
- **Service** (`Server`): the constant catalog and the three GET routes,
  including the 404 for an unknown playlist.
- **JavaScript built-ins** (`JsArray`, `JsString`, `JsNumber`): `findIndex`,
  `find`, `filter`, `filter(Boolean)`, `includes`, `toLowerCase`, `trim` and
  the blank test `!s.trim()`, integer `toString`, `padStart`, and the
  truncating `%` on integers and on numbers.

One might expect the session to clamp the volume to [0, 1] and a seek to
[0, duration], to reset the position and set the length when the track
changes, and to play only while a track is current. The reducer does none of
this: every setter stores its payload as given, `SET_CURRENT_SONG` changes
nothing but the current song, and `TOGGLE_PLAY` flips the flag with no song.
The model follows the code; `MusicContext.NoClampingNoReset` states the
differences.

## Model

| member | source | states |
|---|---|---|
| `JsArray.FindIndex` | src/contexts/MusicContext.tsx:77 | `findIndex` gives -1 exactly when no element satisfies the predicate, otherwise the first index that does |
| `JsArray.FindIndexIsFirst` | src/contexts/MusicContext.tsx:77 | an index whose element matches and before which none does is the one `findIndex` returns |
| `JsArray.Find` | src/pages/Playlists.tsx:43 | `find` gives nothing exactly when no element matches, otherwise the first matching element |
| `JsArray.Filter` | src/pages/Search.tsx:27 | `filter` keeps exactly the elements satisfying the predicate, in order, as a subsequence no longer than the input |
| `JsArray.FilterAppend` | src/pages/Search.tsx:27 | filtering distributes over concatenation, so each occurrence is kept or dropped where it stands |
| `JsArray.FilterOne` | src/pages/Search.tsx:27 | a one-element list keeps its element exactly when the predicate holds for it |
| `JsArray.FilterCount` | src/pages/Search.tsx:27 | each satisfying element is kept as many times as it occurs, every other element not at all |
| `JsArray.FilterAgrees` | src/pages/Search.tsx:27-30 | two predicates that agree on every element filter a list identically |
| `JsArray.Somes` | src/pages/Playlists.tsx:63 | `filter(Boolean)` over looked-up songs keeps exactly the found ones and is no longer than its input |
| `JsArray.SomesAppend` | src/pages/Playlists.tsx:63 | dropping misses distributes over concatenation |
| `JsArray.SomesAllPresent` | server/server.js:124 | when every lookup found a song, `filter(Boolean)` keeps the length and unwraps each position |
| `JsNumber.JsRem` | src/contexts/MusicContext.tsx:78 | JavaScript `%` by a positive divisor: the mathematical remainder for a non-negative dividend, a value in (-b, 0] for a negative one |
| `JsNumber.JsRemOdd` | src/contexts/MusicContext.tsx:84 | `%` truncates: negating the dividend negates the remainder |
| `JsNumber.JsRemReal` | src/components/MiniPlayer.tsx:12 | `%` on numbers by a positive divisor: a value with the sign of the dividend, smaller than the divisor in magnitude, that differs from the dividend by a whole multiple of it |
| `JsString.IncludesIff` | src/pages/Search.tsx:28 | `includes` holds exactly when the needle occurs at some index of the string |
| `JsString.Includes` | src/pages/Search.tsx:28-29 | the empty needle is always included, and an included needle is no longer than the string |
| `JsString.ToLower` | src/pages/Search.tsx:28 | `toLowerCase` keeps the length and lowers each character (ASCII letters) |
| `JsString.LowerChar` | src/pages/Search.tsx:28 | a lowered character is never an ASCII capital; a capital becomes its small letter, every other character is kept |
| `JsString.ToLowerIdempotent` | src/pages/Search.tsx:28-29 | lowering a lowered string changes nothing |
| `JsString.ToLowerKeepsBlank` | src/pages/Search.tsx:26 | a string is blank exactly when its lowercase form is |
| `JsString.TrimStart` | src/pages/Search.tsx:26 | `trimStart` leaves a suffix that does not start with white space, and everything it removed is white space |
| `JsString.TrimEnd` | src/pages/Search.tsx:26 | `trimEnd` leaves a prefix that does not end with white space, and everything it removed is white space |
| `JsString.Trim` | src/pages/Search.tsx:26 | `trim` leaves a string with no white space at either end, and leaves nothing exactly when the string is all white space, which is the test `!query.trim()` |
| `JsString.TrimKeepsMiddle` | src/pages/Search.tsx:26 | `trim` keeps the slice of the string after its leading white space, and everything outside that slice is white space |
| `JsString.Decimal` | src/pages/Playlists.tsx:57 | `toString` of a natural number: digits only, no leading zero, reading back as the number |
| `JsString.DecimalBelow100` | src/pages/Playlists.tsx:57 | a number below 100 prints in at most two digits |
| `JsString.DigitChar` | src/pages/Playlists.tsx:57 | the digit character of a value below 10 is a digit worth that value |
| `JsString.PadStart` | src/pages/Playlists.tsx:57 | `padStart(width, c)` keeps the string as a suffix and fills up to the width with `c` |
| `JsString.IntToString` | src/pages/Playlists.tsx:57 | `toString` of an integer: the digits of a non-negative value, reading back as it, with no leading zero; a minus sign followed by the digits of the magnitude, again with no leading zero, for a negative one |
| `MusicContext.SongIndex` | src/contexts/MusicContext.tsx:77 | the index of the first song with the id, or -1 exactly when no song has it |
| `MusicContext.SongIndexUnique` | src/contexts/MusicContext.tsx:77 | with distinct ids, a song's id is found at that song's position |
| `MusicContext.FindSong` | src/pages/Playlists.tsx:45 | finding a song by id gives nothing exactly when no song has the id, otherwise a listed song with that id |
| `MusicContext.FindSongFirst` | src/pages/Playlists.tsx:45 | the song found is the first one with the id |
| `MusicContext.FindPlaylist` | src/pages/Playlists.tsx:43 | finding a playlist by id gives nothing exactly when none has the id, otherwise a listed playlist with it |
| `MusicContext.FindPlaylistFirst` | src/pages/Playlists.tsx:43 | the playlist found is the first one with the id |
| `MusicContext.Reduce` | src/contexts/MusicContext.tsx:55-90 | every action leaves every field but its own as it was, and an unknown action type leaves the state unchanged |
| `MusicContext.Run` | src/contexts/MusicContext.tsx:99 | after a sequence of dispatches, a field that none of the actions writes still holds its starting value |
| `MusicContext.RunAppend` | src/contexts/MusicContext.tsx:55-90 | dispatching `a` then `b` equals dispatching `a`, then `b`, from the state `a` left |
| `MusicContext.SetterStoresPayload` | src/contexts/MusicContext.tsx:57-74 | each of the eight setters writes exactly its field, with the payload as given |
| `MusicContext.SettersLastWriteWins` | src/contexts/MusicContext.tsx:57-74 | two setters of the same field in a row equal the second alone |
| `MusicContext.TogglePlayInvolution` | src/contexts/MusicContext.tsx:59-60 | TOGGLE_PLAY negates `isPlaying`, changes nothing else, even with no song, and twice is the identity |
| `MusicContext.NavigationIdle` | src/contexts/MusicContext.tsx:76 | NEXT_SONG and PREVIOUS_SONG change nothing without a current song or with no songs |
| `MusicContext.CurrentIndex` | src/contexts/MusicContext.tsx:77 | when the current id first occurs at i, `findIndex` returns i |
| `MusicContext.NextSongAt` | src/contexts/MusicContext.tsx:75-80 | with the current id first at i of n songs, NEXT_SONG makes song (i+1) mod n current and changes nothing else |
| `MusicContext.PreviousSongAt` | src/contexts/MusicContext.tsx:81-86 | under the same condition PREVIOUS_SONG makes song (i-1+n) mod n current and changes nothing else |
| `MusicContext.NavigationSteps` | src/contexts/MusicContext.tsx:75-86 | next moves to i+1 or wraps from the last song to the first; previous moves to i-1 or wraps from the first to the last |
| `MusicContext.NavigationFromMissingSong` | src/contexts/MusicContext.tsx:77-85 | with the current id absent, next selects the first song, previous the next-to-last (the first when there is one song) |
| `MusicContext.MissingWrap` | src/contexts/MusicContext.tsx:78-84 | the next and previous indexes computed from -1 over n songs: 0, and n - 2 (0 for one song) |
| `MusicContext.NavigationStaysInCatalog` | src/contexts/MusicContext.tsx:75-86 | with a current song and a non-empty list, next and previous always select a song of the list and keep the list |
| `MusicContext.NextPreviousInverse` | src/contexts/MusicContext.tsx:78-84 | with distinct ids and the current song listed, previous after next, and next after previous, restore the state |
| `MusicContext.PreviousUndoesNext` | src/contexts/MusicContext.tsx:78-84 | previous after next restores the state |
| `MusicContext.NextUndoesPrevious` | src/contexts/MusicContext.tsx:78-84 | next after previous restores the state |
| `MusicContext.UniqueCurrentAt` | src/contexts/MusicContext.tsx:77 | with distinct ids, the current song's position is where its id first occurs |
| `MusicContext.SingleSongNavigation` | src/contexts/MusicContext.tsx:75-86 | with one song, current, next and previous change nothing |
| `MusicContext.NoClampingNoReset` | src/contexts/MusicContext.tsx:57-68 | volume 1.5 and position -3 are stored as given; a song change keeps position, length and play flag; toggling from the initial state plays with no song |
| `MusicContext.WraparoundScenario` | src/contexts/MusicContext.tsx:75-86 | over songs A, B, C: select B, next, next, previous visits C, A, C |
| `MusicContext.MediaEventEffect` | src/contexts/MusicContext.tsx:106-111 | `timeupdate` stores the position, `loadedmetadata` the length, and `ended` acts as NEXT_SONG |
| `MusicContext.MediaAction` | src/contexts/MusicContext.tsx:106-111 | `timeupdate` gives exactly the SET_CURRENT_TIME actions, `loadedmetadata` exactly the SET_DURATION ones, `ended` exactly NEXT_SONG, each carrying the element's value |
| `MusicContext.Store.constructor` | src/contexts/MusicContext.tsx:44-53 | the session starts from `InitialState`, with no song, not playing, position and length 0, volume 0.7, empty lists, no playlist |
| `MusicContext.Store.Dispatch` | src/contexts/MusicContext.tsx:99 | dispatching replaces the state with the reducer's result |
| `Catalog.LookUp` | src/pages/Playlists.tsx:63 | mapping ids to `find` results keeps the length and puts the lookup of id k at position k |
| `Catalog.Resolve` | src/pages/Playlists.tsx:63 | the resolved songs are no more than the ids, and a song is among them exactly when it is the lookup of one of the ids |
| `Catalog.ResolvedFromCatalog` | src/pages/Playlists.tsx:63 | every resolved song is a listed song whose id is one of the playlist's ids |
| `Catalog.LookUpAppend` | src/pages/Playlists.tsx:63 | lookups of concatenated ids concatenate |
| `Catalog.ResolveAppend` | src/pages/Playlists.tsx:63 | resolution of concatenated ids concatenates, so resolved songs keep id order |
| `Catalog.ResolveOne` | src/pages/Playlists.tsx:63 | one id resolves to its first song, or to nothing |
| `Catalog.ResolveDropsMissing` | src/pages/Playlists.tsx:63 | an id with no song is dropped without disturbing its neighbours |
| `Catalog.ResolveAllFound` | server/server.js:124 | when every id has a song, resolution keeps the length and gives at k the first song with id k |
| `TimeFormat.PadTwoDigits` | src/pages/Playlists.tsx:57 | padding one or two digits to two keeps their value |
| `TimeFormat.FormatClock` | src/pages/Search.tsx:41 | for minutes and seconds below 60, the template text is clock text for minutes * 60 + seconds |
| `TimeFormat.FormatDuration` | src/pages/Playlists.tsx:54-58 | clock text for the input: minutes without leading zero, a colon, two digits of seconds below 60, and minutes * 60 + seconds is the input (also the search page's copy, src/pages/Search.tsx:38-42) |
| `TimeFormat.ClockShape` | src/pages/Search.tsx:41 | a numeral without leading zero, a colon and two digits below 60 read back as minutes * 60 + seconds |
| `TimeFormat.PaddedSeconds` | src/pages/Search.tsx:41 | seconds below 60 padded to two characters are two digits worth the seconds |
| `TimeFormat.FormatTime` | src/components/MiniPlayer.tsx:10-14 | for a non-negative time, the text is the duration text of its whole seconds |
| `TimeFormat.FloorSplit` | src/components/MiniPlayer.tsx:11-12 | for a non-negative time, floor(t / 60) and floor(t % 60) are the quotient and remainder of floor(t) by 60 |
| `Playback.PlaySongEffect` | src/pages/Playlists.tsx:37-40 | playing a song makes it current and playing and keeps the playlist context and every other field |
| `Playback.PlayPlaylistRefused` | src/pages/Playlists.tsx:42-46 | unknown playlist, no ids, or an unresolved first id: no state change and no fall-back to a later id |
| `Playback.PlayPlaylistEffect` | src/pages/Playlists.tsx:47-49 | otherwise the first song with the first id becomes current, the playlist is recorded, playback starts, and position and length are untouched |
| `Playback.PlaySongActions` | src/pages/Playlists.tsx:37-40 | both dispatches are setters: the song is made current and playback is switched on, and no field but those two is written |
| `Playback.FirstSongOf` | src/pages/Playlists.tsx:43-46 | nothing for an unknown playlist; a found song is a listed song carrying the first id of a playlist with the requested id |
| `Playback.PlayPlaylistActions` | src/pages/Playlists.tsx:42-52 | no dispatch exactly when no first song is found; otherwise setters only, the first making that song current, one recording the playlist, one starting playback, and no other field written |
| `Playback.PlaySong` | src/pages/Search.tsx:33-36 | the handler (also on the playlists page and the home page's cards) leaves the state its two dispatches produce: the song current and playing |
| `Playback.PlayPlaylist` | src/pages/Home.tsx:33-43 | the handler (also on the playlists page) leaves the state its guarded dispatches produce, decided on the state it was rendered with |
| `Playlists.GetPlaylistSongs` | src/pages/Playlists.tsx:60-64 | nothing for an unknown playlist; otherwise at most one song per id, each the lookup of one of the ids |
| `Playlists.SumDurations` | src/pages/Playlists.tsx:86 | the fold never drops below its start value, and every song's duration is counted on top of it |
| `Playlists.TotalDuration` | src/pages/Playlists.tsx:86 | an empty list totals 0, and no song is longer than the total |
| `Playlists.SumDurationsShift` | src/pages/Playlists.tsx:86 | the fold's start value only shifts the total |
| `Playlists.TotalDurationAppend` | src/pages/Playlists.tsx:86 | the total length is additive over concatenation |
| `Playlists.TotalDurationOne` | src/pages/Playlists.tsx:86 | one song contributes its own duration |
| `Playlists.PlaylistTotalByIds` | src/pages/Playlists.tsx:85-86 | appending an id adds the duration of its song, or nothing when it has none |
| `Playlists.PageAgreesWithServer` | src/pages/Playlists.tsx:60-64 | with the service's lists loaded, the page shows exactly the songs the service's playlist route returns, and nothing where it answers 404 |
| `Search.Matches` | src/pages/Search.tsx:28-29 | a song matches exactly when the lowercased query occurs at some position of its lowercased title or of its lowercased artist |
| `Search.FilteredSongs` | src/pages/Search.tsx:25-31 | nothing for a blank query; otherwise exactly the matching songs, as a subsequence of the list |
| `Search.FilteredSongsCount` | src/pages/Search.tsx:25-31 | a matching song is kept as often as the list holds it, and a non-matching one, or any song under a blank query, not at all |
| `Search.FilteredSongsAppend` | src/pages/Search.tsx:27-30 | searching two lists one after the other gives the two results one after the other |
| `Search.CaseInsensitive` | src/pages/Search.tsx:28-29 | a query and its lowercase form give identical results |
| `Search.UntrimmedQuery` | src/pages/Search.tsx:26-29 | the query is trimmed only for the blank test: " stay" misses a song titled "Stay" that "stay" finds, for any artist in which " stay" does not occur (the catalog's "The Kid LAROI, Justin Bieber" among them) |
| `Home.RecentlyPlayed` | src/pages/Home.tsx:83 | the first min(6, n) songs, in order |
| `Home.RecentCardPlays` | src/pages/Home.tsx:87-90 | clicking card k makes song k current and playing, keeping the playlist context and the list |
| `MiniPlayer.ControlAction` | src/components/MiniPlayer.tsx:51-70 | back dispatches PREVIOUS_SONG, the centre button TOGGLE_PLAY, forward NEXT_SONG |
| `MiniPlayer.Render` | src/components/MiniPlayer.tsx:8-91 | nothing exactly when there is no current song; otherwise its cover, title and artist, the pause icon while playing, and the position and length as duration text |
| `MiniPlayer.ControlsKeepPlayerShown` | src/components/MiniPlayer.tsx:51-70 | a shown player stays shown after any button; back and forward land on a listed song, play/pause flips only the icon |
| `MiniPlayer.ControlsUndo` | src/components/MiniPlayer.tsx:52-66 | play/pause twice restores the state; with distinct ids and a listed song, forward then back and back then forward do too |
| `MiniPlayer.VolumeStoredAsGiven` | src/components/MiniPlayer.tsx:27-30 | the parsed value is stored unclamped; it lies in [0, 1] only when it is a slider value |
| `MiniPlayer.VolumeAction` | src/components/MiniPlayer.tsx:27-30 | the slider dispatches a setter of the volume alone, which stores the parsed value in any state |
| `MiniPlayer.OnControl` | src/components/MiniPlayer.tsx:51-70 | a button press leaves the reducer's result for that button's action |
| `MiniPlayer.OnVolumeChange` | src/components/MiniPlayer.tsx:98-104 | a slider change stores the value as the volume and changes nothing else |
| `Server.Handle` | server/server.js:110-126 | the list routes return the arrays unchanged; an unknown playlist gets 404 with "Playlist not found"; a known one gets 200 with its id and at most one listed song per id |
| `Server.PlaylistDetailFields` | server/server.js:124-125 | a found playlist keeps its other fields and has its ids replaced by the resolved songs |
| `Server.Serve` | server/server.js:110-126 | the deployed service answers 200 or 404, and 404 exactly for a playlist id other than playlist1 to playlist4 |
| `Server.CatalogSongsWellFormed` | server/server.js:11-76 | the catalog's song ids are distinct and every duration is positive |
| `Server.CatalogSongIds` | server/server.js:11-76 | catalog song k carries the one-digit id k + 1 |
| `Server.FindCatalogSong` | server/server.js:11-76 | each catalog song is the one found by its id |
| `Server.CatalogIdFound` | server/server.js:11-76 | an id carried by a catalog song is found |
| `Server.IdIndex` | server/server.js:78-107 | every id a catalog playlist names is the id of some catalog song |
| `Server.CatalogReferencesResolve` | server/server.js:78-107 | every id a catalog playlist names resolves |
| `Server.CatalogPlaylistIdsDistinct` | server/server.js:78-107 | the catalog's playlist ids are distinct |
| `Server.ServeLists` | server/server.js:110-122 | `/api/songs` and `/api/playlists` return the catalog arrays unchanged; an unknown id gets the 404 |
| `Server.HandleWholePlaylist` | server/server.js:118-126 | with distinct playlist ids and all references resolving, a playlist is served with one song per id, in id order |
| `Server.ServeCatalogPlaylist` | server/server.js:118-126 | every catalog playlist is served with one catalog song per id, in id order (playlist1 gives songs 1, 2, 3, 4) |

## Left out

- Network I/O: the `fetch` calls, `async`/`await`, `response.json()` and the `console.error` logging of the three pages; a page's loaded lists are the `SET_SONGS`/`SET_PLAYLISTS` actions with the service's arrays as payload.
- The provider's effects that drive the audio element (`play()`, `pause()`, setting its volume and source) and the listener registration; only the actions its listeners dispatch are modelled, as `MediaEvent`.
- `handleProgressClick` and the progress bar's width: DOM geometry and floating-point division.
- Express, CORS and `app.listen`; JSX markup, CSS, the navigation bar and the router, which hold no logic; the playlists page's summary line and "Loading playlists..." text.
- `ToLower`: lowers the ASCII letters only, not the full Unicode case mapping of `toLowerCase`.
- `MiniPlayer.OnVolumeChange`: takes the value `parseFloat` produced, not the slider's text.
- `MusicContext.Song`: durations are natural numbers, so the `|| 0` fallback of the total-length fold has no case to handle; positions, lengths and volumes are reals without NaN or infinities.
- `JsNumber.JsRem`: JavaScript's `-0` is the integer 0, which indexes the same element.
- `TimeFormat.FormatTime`: for negative times only the definition is given, no property is stated.
