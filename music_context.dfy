/** The playback session: the song and playlist records, the session state, the
    eleven actions and the reducer that applies them, and the store that holds the
    state and dispatches actions to the reducer. */
module MusicContext {
  import opened JsArray
  import opened JsNumber

  datatype Song = Song(
    id: string,
    title: string,
    artist: string,
    albumCover: string,
    audioUrl: string,
    duration: nat)

  /** A playlist refers to its songs by id. */
  datatype Playlist = Playlist(
    id: string,
    name: string,
    coverImage: string,
    songs: seq<string>,
    description: string)

  datatype MusicState = MusicState(
    currentSong: Option<Song>,
    isPlaying: bool,
    currentTime: real,
    duration: real,
    volume: real,
    songs: seq<Song>,
    playlists: seq<Playlist>,
    currentPlaylist: Option<string>)

  /** The action kinds, plus `Unknown` for an action whose `type` matches none of
      the eleven cases. `kind` is only a label: the reducer never reads it, so
      `Unknown` always takes the default arm, whatever string it carries. */
  datatype MusicAction =
    | SetCurrentSong(song: Song)
    | TogglePlay
    | SetPlaying(playing: bool)
    | SetCurrentTime(time: real)
    | SetDuration(length: real)
    | SetVolume(level: real)
    | SetSongs(catalog: seq<Song>)
    | SetPlaylists(lists: seq<Playlist>)
    | SetCurrentPlaylist(playlistId: Option<string>)
    | NextSong
    | PreviousSong
    | Unknown(kind: string)
  {
    /** The eight actions that store their payload in one field. */
    predicate IsSetter()
    {
      !(TogglePlay? || NextSong? || PreviousSong? || Unknown?)
    }
  }

  /** The eight fields of the session state, to say which of them an action writes. */
  datatype Field =
    | CurrentSongField | IsPlayingField | CurrentTimeField | DurationField
    | VolumeField | SongsField | PlaylistsField | CurrentPlaylistField

  /** The field an action may write; `None` for an action that writes nothing. */
  function FieldOf(a: MusicAction): Option<Field>
  {
    match a
    case SetCurrentSong(_) => Some(CurrentSongField)
    case TogglePlay => Some(IsPlayingField)
    case SetPlaying(_) => Some(IsPlayingField)
    case SetCurrentTime(_) => Some(CurrentTimeField)
    case SetDuration(_) => Some(DurationField)
    case SetVolume(_) => Some(VolumeField)
    case SetSongs(_) => Some(SongsField)
    case SetPlaylists(_) => Some(PlaylistsField)
    case SetCurrentPlaylist(_) => Some(CurrentPlaylistField)
    case NextSong => Some(CurrentSongField)
    case PreviousSong => Some(CurrentSongField)
    case Unknown(_) => None
  }

  /** `s` and `t` agree on every field except possibly `f`. */
  ghost predicate AgreeExcept(s: MusicState, t: MusicState, f: Option<Field>)
  {
    && (f != Some(CurrentSongField) ==> s.currentSong == t.currentSong)
    && (f != Some(IsPlayingField) ==> s.isPlaying == t.isPlaying)
    && (f != Some(CurrentTimeField) ==> s.currentTime == t.currentTime)
    && (f != Some(DurationField) ==> s.duration == t.duration)
    && (f != Some(VolumeField) ==> s.volume == t.volume)
    && (f != Some(SongsField) ==> s.songs == t.songs)
    && (f != Some(PlaylistsField) ==> s.playlists == t.playlists)
    && (f != Some(CurrentPlaylistField) ==> s.currentPlaylist == t.currentPlaylist)
  }

  const InitialState := MusicState(None, false, 0.0, 0.0, 0.7, [], [], None)

  /** No two songs of the list share an id. */
  ghost predicate UniqueIds(songs: seq<Song>)
  {
    forall i, j :: 0 <= i < j < |songs| ==> songs[i].id != songs[j].id
  }

  /** `songs.findIndex(song => song.id === id)` */
  function SongIndex(songs: seq<Song>, id: string): (r: int)
    ensures -1 <= r < |songs|
    ensures r == -1 <==> forall j :: 0 <= j < |songs| ==> songs[j].id != id
    ensures 0 <= r ==> songs[r].id == id && forall j :: 0 <= j < r ==> songs[j].id != id
  {
    FindIndex(songs, (song: Song) => song.id == id)
  }

  /** With unique ids, the index of a song's id is that song's position. */
  lemma SongIndexUnique(songs: seq<Song>, k: int)
    requires UniqueIds(songs) && 0 <= k < |songs|
    ensures SongIndex(songs, songs[k].id) == k
  {
  }

  /** `songs.find(song => song.id === id)`: the first song with that id, if any. */
  function FindSong(songs: seq<Song>, id: string): (r: Option<Song>)
    ensures r.None? <==> forall j :: 0 <= j < |songs| ==> songs[j].id != id
    ensures r.Some? ==> r.value in songs && r.value.id == id
  {
    Find(songs, (song: Song) => song.id == id)
  }

  /** find returns the first song with the id, not a later one. */
  lemma FindSongFirst(songs: seq<Song>, id: string, i: int)
    requires 0 <= i < |songs| && songs[i].id == id
    requires forall j :: 0 <= j < i ==> songs[j].id != id
    ensures FindSong(songs, id) == Some(songs[i])
  {
  }

  /** `playlists.find(p => p.id === id)`: the first playlist with that id, if any. */
  function FindPlaylist(playlists: seq<Playlist>, id: string): (r: Option<Playlist>)
    ensures r.None? <==> forall j :: 0 <= j < |playlists| ==> playlists[j].id != id
    ensures r.Some? ==> r.value in playlists && r.value.id == id
  {
    Find(playlists, (p: Playlist) => p.id == id)
  }

  /** find returns the first playlist with the id, not a later one. */
  lemma FindPlaylistFirst(playlists: seq<Playlist>, id: string, i: int)
    requires 0 <= i < |playlists| && playlists[i].id == id
    requires forall j :: 0 <= j < i ==> playlists[j].id != id
    ensures FindPlaylist(playlists, id) == Some(playlists[i])
  {
  }

  /** `musicReducer`: every arm returns a copy of the state with at most one field
      replaced, or the state itself. */
  function Reduce(state: MusicState, action: MusicAction): (r: MusicState)
    ensures AgreeExcept(r, state, FieldOf(action))
    ensures action.Unknown? ==> r == state
  {
    match action
    case SetCurrentSong(song) => state.(currentSong := Some(song))
    case TogglePlay => state.(isPlaying := !state.isPlaying)
    case SetPlaying(playing) => state.(isPlaying := playing)
    case SetCurrentTime(time) => state.(currentTime := time)
    case SetDuration(length) => state.(duration := length)
    case SetVolume(level) => state.(volume := level)
    case SetSongs(catalog) => state.(songs := catalog)
    case SetPlaylists(lists) => state.(playlists := lists)
    case SetCurrentPlaylist(playlistId) => state.(currentPlaylist := playlistId)
    case NextSong =>
      if state.currentSong.None? || |state.songs| == 0 then state
      else
        var n := |state.songs|;
        var currentIndex := SongIndex(state.songs, state.currentSong.value.id);
        var nextIndex := JsRem(currentIndex + 1, n);
        state.(currentSong := Some(state.songs[nextIndex]))
    case PreviousSong =>
      if state.currentSong.None? || |state.songs| == 0 then state
      else
        var n := |state.songs|;
        var currentIndex := SongIndex(state.songs, state.currentSong.value.id);
        // currentIndex - 1 + n is negative only for n == 1 and a missing song;
        // JavaScript then yields -0, which indexes element 0
        var previousIndex := JsRem(currentIndex - 1 + n, n);
        state.(currentSong := Some(state.songs[previousIndex]))
    case Unknown(_) => state
  }

  /** `s` and `t` hold the same value in field `f`. */
  ghost predicate SameIn(s: MusicState, t: MusicState, f: Field)
  {
    match f
    case CurrentSongField => s.currentSong == t.currentSong
    case IsPlayingField => s.isPlaying == t.isPlaying
    case CurrentTimeField => s.currentTime == t.currentTime
    case DurationField => s.duration == t.duration
    case VolumeField => s.volume == t.volume
    case SongsField => s.songs == t.songs
    case PlaylistsField => s.playlists == t.playlists
    case CurrentPlaylistField => s.currentPlaylist == t.currentPlaylist
  }

  /** No action of the list writes field `f`. */
  ghost predicate Untouched(actions: seq<MusicAction>, f: Field)
  {
    forall k :: 0 <= k < |actions| ==> FieldOf(actions[k]) != Some(f)
  }

  /** Dispatching the actions one after another, starting from `state`; a field
      that none of them writes keeps its value. */
  function Run(state: MusicState, actions: seq<MusicAction>): (r: MusicState)
    ensures forall f :: Untouched(actions, f) ==> SameIn(r, state, f)
    decreases |actions|
  {
    if actions == [] then state
    else
      var r := Run(Reduce(state, actions[0]), actions[1..]);
      RunKeeps(state, actions, r);
      r
  }

  /** Proof helper: a field untouched by the whole list is untouched by its tail
      and is not the first action's field, so it survives both steps. */
  lemma RunKeeps(state: MusicState, actions: seq<MusicAction>, r: MusicState)
    requires actions != []
    requires forall f :: Untouched(actions[1..], f) ==> SameIn(r, Reduce(state, actions[0]), f)
    ensures forall f :: Untouched(actions, f) ==> SameIn(r, state, f)
  {
    forall f | Untouched(actions, f) ensures SameIn(r, state, f) {
      assert FieldOf(actions[0]) != Some(f);
      assert Untouched(actions[1..], f) by {
        forall k | 0 <= k < |actions[1..]| ensures FieldOf(actions[1..][k]) != Some(f) {
          assert actions[1..][k] == actions[k + 1];
        }
      }
    }
  }

  /** Dispatching `a` then `b` is dispatching `a` and then dispatching `b`. */
  lemma {:induction false} RunAppend(state: MusicState, a: seq<MusicAction>, b: seq<MusicAction>)
    ensures Run(state, a + b) == Run(Run(state, a), b)
    decreases |a|
  {
    if a == [] {
      assert a + b == b;
    } else {
      assert (a + b)[0] == a[0];
      assert (a + b)[1..] == a[1..] + b;
      RunAppend(Reduce(state, a[0]), a[1..], b);
    }
  }

  /** A setter stores its payload as given: no clamping of volume or time, no reset
      of the position when the song changes. */
  lemma SetterStoresPayload(s: MusicState, a: MusicAction)
    requires a.IsSetter()
    ensures FieldOf(a).Some? && AgreeExcept(Reduce(s, a), s, FieldOf(a))
    ensures a.SetCurrentSong? ==> Reduce(s, a).currentSong == Some(a.song)
    ensures a.SetPlaying? ==> Reduce(s, a).isPlaying == a.playing
    ensures a.SetCurrentTime? ==> Reduce(s, a).currentTime == a.time
    ensures a.SetDuration? ==> Reduce(s, a).duration == a.length
    ensures a.SetVolume? ==> Reduce(s, a).volume == a.level
    ensures a.SetSongs? ==> Reduce(s, a).songs == a.catalog
    ensures a.SetPlaylists? ==> Reduce(s, a).playlists == a.lists
    ensures a.SetCurrentPlaylist? ==> Reduce(s, a).currentPlaylist == a.playlistId
  {
  }

  /** Two setters of the same field: the later one wins, whatever the earlier wrote. */
  lemma SettersLastWriteWins(s: MusicState, a: MusicAction, b: MusicAction)
    requires a.IsSetter() && b.IsSetter() && FieldOf(a) == FieldOf(b)
    ensures Reduce(Reduce(s, a), b) == Reduce(s, b)
  {
  }

  /** TOGGLE_PLAY negates isPlaying, with or without a current song, and changes
      nothing else; toggling twice restores the state. */
  lemma TogglePlayInvolution(s: MusicState)
    ensures Reduce(s, TogglePlay).isPlaying == !s.isPlaying
    ensures AgreeExcept(Reduce(s, TogglePlay), s, Some(IsPlayingField))
    ensures Reduce(Reduce(s, TogglePlay), TogglePlay) == s
  {
  }

  /** NEXT_SONG and PREVIOUS_SONG ignore a state with no current song or no songs. */
  lemma NavigationIdle(s: MusicState, a: MusicAction)
    requires a.NextSong? || a.PreviousSong?
    requires s.currentSong.None? || s.songs == []
    ensures Reduce(s, a) == s
  {
  }

  /** The current song's id first occurs at index `i` of the song list. */
  ghost predicate CurrentAt(s: MusicState, i: int)
  {
    && s.currentSong.Some?
    && 0 <= i < |s.songs|
    && s.songs[i].id == s.currentSong.value.id
    && forall j :: 0 <= j < i ==> s.songs[j].id != s.currentSong.value.id
  }

  /** The current song's id does not occur in a non-empty song list. */
  ghost predicate CurrentMissing(s: MusicState)
  {
    && s.currentSong.Some?
    && |s.songs| > 0
    && forall j :: 0 <= j < |s.songs| ==> s.songs[j].id != s.currentSong.value.id
  }

  /** findIndex finds the current song's id at its first occurrence. */
  lemma CurrentIndex(s: MusicState, i: int)
    requires CurrentAt(s, i)
    ensures SongIndex(s.songs, s.currentSong.value.id) == i
  {
  }

  /** NEXT_SONG moves to the following song of the flat list, wrapping at the end,
      and changes nothing else (isPlaying, currentTime, currentPlaylist stay). */
  lemma NextSongAt(s: MusicState, i: int)
    requires CurrentAt(s, i)
    ensures Reduce(s, NextSong) == s.(currentSong := Some(s.songs[(i + 1) % |s.songs|]))
  {
    CurrentIndex(s, i);
  }

  /** PREVIOUS_SONG moves to the preceding song of the flat list, wrapping at the
      start, and changes nothing else. */
  lemma PreviousSongAt(s: MusicState, i: int)
    requires CurrentAt(s, i)
    ensures Reduce(s, PreviousSong) == s.(currentSong := Some(s.songs[(i - 1 + |s.songs|) % |s.songs|]))
  {
    CurrentIndex(s, i);
  }

  /** The wrap-around in plain terms: NEXT_SONG goes from the last song to the first,
      PREVIOUS_SONG from the first to the last, and otherwise one step along. */
  lemma NavigationSteps(s: MusicState, i: int)
    requires CurrentAt(s, i)
    ensures i + 1 < |s.songs| ==> Reduce(s, NextSong).currentSong == Some(s.songs[i + 1])
    ensures i + 1 == |s.songs| ==> Reduce(s, NextSong).currentSong == Some(s.songs[0])
    ensures 0 < i ==> Reduce(s, PreviousSong).currentSong == Some(s.songs[i - 1])
    ensures i == 0 ==> Reduce(s, PreviousSong).currentSong == Some(s.songs[|s.songs| - 1])
  {
    NextSongAt(s, i);
    PreviousSongAt(s, i);
    WrapSteps(i, |s.songs|);
  }

  /** Proof helper: the index arithmetic of a wrap-around step. */
  lemma WrapSteps(i: int, n: int)
    requires 0 <= i < n
    ensures i + 1 < n ==> (i + 1) % n == i + 1
    ensures i + 1 == n ==> (i + 1) % n == 0
    ensures 0 < i ==> (i - 1 + n) % n == i - 1
    ensures i == 0 ==> (i - 1 + n) % n == n - 1
  {
  }

  /** A current song whose id is not in the list: findIndex gives -1, so NEXT_SONG
      picks the first song and PREVIOUS_SONG the last but one (the only one when the
      list has one song, where JavaScript computes -1 % 1 as -0). */
  lemma NavigationFromMissingSong(s: MusicState)
    requires CurrentMissing(s)
    ensures Reduce(s, NextSong) == s.(currentSong := Some(s.songs[0]))
    ensures |s.songs| >= 2 ==> Reduce(s, PreviousSong) == s.(currentSong := Some(s.songs[|s.songs| - 2]))
    ensures |s.songs| == 1 ==> Reduce(s, PreviousSong) == s.(currentSong := Some(s.songs[0]))
  {
    var n := |s.songs|;
    assert SongIndex(s.songs, s.currentSong.value.id) == -1;
    MissingWrap(n);
  }

  /** The index arithmetic from findIndex's -1 over `n` songs. */
  lemma MissingWrap(n: int)
    requires n > 0
    ensures JsRem(-1 + 1, n) == 0
    ensures n >= 2 ==> JsRem(-1 - 1 + n, n) == n - 2
    ensures n == 1 ==> JsRem(-1 - 1 + n, n) == 0
  {
  }

  /** Whenever NEXT_SONG or PREVIOUS_SONG acts, the new current song is one of the
      list's songs. */
  lemma NavigationStaysInCatalog(s: MusicState, a: MusicAction)
    requires a.NextSong? || a.PreviousSong?
    requires s.currentSong.Some? && s.songs != []
    ensures Reduce(s, a).currentSong.Some? && Reduce(s, a).currentSong.value in s.songs
    ensures Reduce(s, a).songs == s.songs
  {
  }

  /** With unique ids and the current song in the list, PREVIOUS_SONG undoes
      NEXT_SONG and NEXT_SONG undoes PREVIOUS_SONG. */
  lemma NextPreviousInverse(s: MusicState)
    requires UniqueIds(s.songs)
    requires s.currentSong.Some? && s.currentSong.value in s.songs
    ensures Reduce(Reduce(s, NextSong), PreviousSong) == s
    ensures Reduce(Reduce(s, PreviousSong), NextSong) == s
  {
    var i :| 0 <= i < |s.songs| && s.songs[i] == s.currentSong.value;
    PreviousUndoesNext(s, i);
    NextUndoesPrevious(s, i);
  }

  lemma PreviousUndoesNext(s: MusicState, i: int)
    requires UniqueIds(s.songs) && 0 <= i < |s.songs| && s.currentSong == Some(s.songs[i])
    ensures Reduce(Reduce(s, NextSong), PreviousSong) == s
  {
    var j := if i + 1 < |s.songs| then i + 1 else 0;
    UniqueCurrentAt(s, i);
    NavigationSteps(s, i);
    var sn := Reduce(s, NextSong);
    assert sn == s.(currentSong := Some(s.songs[j]));
    UniqueCurrentAt(sn, j);
    NavigationSteps(sn, j);
  }

  lemma NextUndoesPrevious(s: MusicState, i: int)
    requires UniqueIds(s.songs) && 0 <= i < |s.songs| && s.currentSong == Some(s.songs[i])
    ensures Reduce(Reduce(s, PreviousSong), NextSong) == s
  {
    var k := if 0 < i then i - 1 else |s.songs| - 1;
    UniqueCurrentAt(s, i);
    NavigationSteps(s, i);
    var sp := Reduce(s, PreviousSong);
    assert sp == s.(currentSong := Some(s.songs[k]));
    UniqueCurrentAt(sp, k);
    NavigationSteps(sp, k);
  }

  /** With unique ids, a current song that is the list's `i`-th song sits at `i`. */
  lemma UniqueCurrentAt(s: MusicState, i: int)
    requires UniqueIds(s.songs) && 0 <= i < |s.songs| && s.currentSong == Some(s.songs[i])
    ensures CurrentAt(s, i)
  {
  }

  /** A one-song list whose song is current: both navigation actions leave the
      state as it is. */
  lemma SingleSongNavigation(s: MusicState)
    requires |s.songs| == 1 && s.currentSong == Some(s.songs[0])
    ensures Reduce(s, NextSong) == s
    ensures Reduce(s, PreviousSong) == s
  {
    NextSongAt(s, 0);
    PreviousSongAt(s, 0);
  }

  /** The reducer does not enforce the session invariants one might expect: a
      volume above 1 and a negative position are stored, the position, the length
      and the play flag all survive a song change, and the session can be playing
      with no song at all. */
  lemma NoClampingNoReset(s: MusicState, song: Song)
    ensures Reduce(s, SetVolume(1.5)).volume == 1.5
    ensures Reduce(s, SetCurrentTime(-3.0)).currentTime == -3.0
    ensures Reduce(s, SetCurrentSong(song)).currentTime == s.currentTime
    ensures Reduce(s, SetCurrentSong(song)).duration == s.duration
    ensures Reduce(s, SetCurrentSong(song)).isPlaying == s.isPlaying
    ensures Reduce(InitialState, TogglePlay).isPlaying && Reduce(InitialState, TogglePlay).currentSong.None?
  {
  }

  /** Three songs A, B, C: selecting B, then next, next, previous visits C, A
      (wrapping) and C again. */
  lemma WraparoundScenario(s: MusicState, a: Song, b: Song, c: Song)
    requires s.songs == [a, b, c] && UniqueIds(s.songs)
    ensures var s1 := Reduce(s, SetCurrentSong(b));
            var s2 := Reduce(s1, NextSong);
            var s3 := Reduce(s2, NextSong);
            var s4 := Reduce(s3, PreviousSong);
            s2.currentSong == Some(c) && s3.currentSong == Some(a) && s4.currentSong == Some(c)
  {
    var s1 := Reduce(s, SetCurrentSong(b));
    SongIndexUnique(s.songs, 1);
    NextSongAt(s1, 1);
    var s2 := Reduce(s1, NextSong);
    SongIndexUnique(s.songs, 2);
    NextSongAt(s2, 2);
    var s3 := Reduce(s2, NextSong);
    SongIndexUnique(s.songs, 0);
    PreviousSongAt(s3, 0);
  }

  /** What the audio element reports: `timeupdate`, `loadedmetadata`, `ended`. */
  datatype MediaEvent = TimeUpdate(position: real) | LoadedMetadata(length: real) | Ended

  /** The action the provider's listeners dispatch for each media event: the
      position and the length are stored as reported, and the end of a track
      moves to the next one. */
  function MediaAction(e: MediaEvent): (a: MusicAction)
    ensures e.TimeUpdate? <==> a.SetCurrentTime?
    ensures e.LoadedMetadata? <==> a.SetDuration?
    ensures e.Ended? <==> a == NextSong
    ensures e.TimeUpdate? ==> a.time == e.position
    ensures e.LoadedMetadata? ==> a.length == e.length
  {
    match e
    case TimeUpdate(position) => SetCurrentTime(position)
    case LoadedMetadata(length) => SetDuration(length)
    case Ended => NextSong
  }

  /** A media event records the position or the length, or advances like NEXT_SONG. */
  lemma MediaEventEffect(s: MusicState, e: MediaEvent)
    ensures e.TimeUpdate? ==> Reduce(s, MediaAction(e)) == s.(currentTime := e.position)
    ensures e.LoadedMetadata? ==> Reduce(s, MediaAction(e)) == s.(duration := e.length)
    ensures e.Ended? ==> Reduce(s, MediaAction(e)) == Reduce(s, NextSong)
  {
  }

  /** The session holder: the current state and `dispatch`. */
  class Store {
    var state: MusicState

    constructor ()
      ensures state == InitialState
      ensures state.currentSong.None? && !state.isPlaying
      ensures state.currentTime == 0.0 && state.duration == 0.0 && state.volume == 0.7
      ensures state.songs == [] && state.playlists == [] && state.currentPlaylist.None?
    {
      state := InitialState;
    }

    method Dispatch(action: MusicAction)
      modifies this
      ensures state == Reduce(old(state), action)
    {
      state := Reduce(state, action);
    }
  }
}
