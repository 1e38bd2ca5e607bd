/** The two dispatch sequences the pages issue: `playSong` (playlists page, search
    page, and the home page's recently-played cards) and `playPlaylist` (playlists
    page and home page). Each is the list of actions it dispatches, in order, so its
    effect is `Run` of that list. */
module Playback {
  import opened JsArray
  import opened MusicContext

  /** SET_CURRENT_SONG with the song, then SET_PLAYING true. */
  function PlaySongActions(song: Song): (r: seq<MusicAction>)
    ensures forall k :: 0 <= k < |r| ==> r[k].IsSetter()
    ensures SetCurrentSong(song) in r && SetPlaying(true) in r
    ensures forall f :: f != CurrentSongField && f != IsPlayingField ==> Untouched(r, f)
  {
    [SetCurrentSong(song), SetPlaying(true)]
  }

  /** The first song of the playlist, when playPlaylist's guard lets it through:
      the playlist is known, has at least one id, and that first id has a song. */
  function FirstSongOf(state: MusicState, playlistId: string): (r: Option<Song>)
    ensures (forall j :: 0 <= j < |state.playlists| ==> state.playlists[j].id != playlistId) ==> r.None?
    ensures r.Some? ==> r.value in state.songs
    ensures r.Some? ==> exists p :: p in state.playlists && p.id == playlistId && p.songs != [] && r.value.id == p.songs[0]
  {
    var playlist := FindPlaylist(state.playlists, playlistId);
    if playlist.Some? && |playlist.value.songs| > 0 then FindSong(state.songs, playlist.value.songs[0])
    else None
  }

  /** playPlaylist's dispatches, decided on the state it was rendered with. */
  function PlayPlaylistActions(state: MusicState, playlistId: string): (r: seq<MusicAction>)
    ensures r == [] <==> FirstSongOf(state, playlistId).None?
    ensures r != [] ==> r[0] == SetCurrentSong(FirstSongOf(state, playlistId).value)
    ensures r != [] ==> SetCurrentPlaylist(Some(playlistId)) in r && SetPlaying(true) in r
    ensures forall k :: 0 <= k < |r| ==> r[k].IsSetter()
    ensures forall f :: f != CurrentSongField && f != CurrentPlaylistField && f != IsPlayingField ==> Untouched(r, f)
  {
    var firstSong := FirstSongOf(state, playlistId);
    if firstSong.Some? then
      [SetCurrentSong(firstSong.value), SetCurrentPlaylist(Some(playlistId)), SetPlaying(true)]
    else []
  }

  /** playSong makes the song current and playing; the playlist context, the
      position and everything else stay as they were. */
  lemma PlaySongEffect(s: MusicState, song: Song)
    ensures Run(s, PlaySongActions(song)) == s.(currentSong := Some(song), isPlaying := true)
    ensures Run(s, PlaySongActions(song)).currentPlaylist == s.currentPlaylist
  {
    var acts := PlaySongActions(song);
    var s1 := Reduce(s, SetCurrentSong(song));
    assert Run(s, acts) == Run(s1, acts[1..]);
    assert acts[1..] == [SetPlaying(true)] && acts[1..][1..] == [];
    assert Run(s1, acts[1..]) == Run(Reduce(s1, SetPlaying(true)), []);
  }

  /** playPlaylist does nothing when the playlist is unknown, has no ids, or its
      first id has no song; it does not fall back to a later id. */
  lemma PlayPlaylistRefused(s: MusicState, playlistId: string)
    requires || FindPlaylist(s.playlists, playlistId).None?
             || FindPlaylist(s.playlists, playlistId).value.songs == []
             || FindSong(s.songs, FindPlaylist(s.playlists, playlistId).value.songs[0]).None?
    ensures Run(s, PlayPlaylistActions(s, playlistId)) == s
  {
  }

  /** When it goes ahead, playPlaylist makes the first catalog song with the
      playlist's first id current, records the playlist and starts playing; the
      position, the duration and the lists are untouched. */
  lemma PlayPlaylistEffect(s: MusicState, playlistId: string)
    requires FindPlaylist(s.playlists, playlistId).Some?
    requires FindPlaylist(s.playlists, playlistId).value.songs != []
    requires FindSong(s.songs, FindPlaylist(s.playlists, playlistId).value.songs[0]).Some?
    ensures var t := Run(s, PlayPlaylistActions(s, playlistId));
      var first := FindSong(s.songs, FindPlaylist(s.playlists, playlistId).value.songs[0]).value;
      && t == s.(currentSong := Some(first), currentPlaylist := Some(playlistId), isPlaying := true)
      && first in s.songs
      && first.id == FindPlaylist(s.playlists, playlistId).value.songs[0]
  {
    var first := FindSong(s.songs, FindPlaylist(s.playlists, playlistId).value.songs[0]).value;
    var acts := PlayPlaylistActions(s, playlistId);
    assert acts == [SetCurrentSong(first), SetCurrentPlaylist(Some(playlistId)), SetPlaying(true)];
    var s1 := Reduce(s, SetCurrentSong(first));
    var s2 := Reduce(s1, SetCurrentPlaylist(Some(playlistId)));
    assert Run(s, acts) == Run(s1, acts[1..]);
    assert acts[1..] == [SetCurrentPlaylist(Some(playlistId)), SetPlaying(true)];
    assert Run(s1, acts[1..]) == Run(s2, acts[1..][1..]);
    assert acts[1..][1..] == [SetPlaying(true)] && acts[1..][1..][1..] == [];
    assert Run(s2, acts[1..][1..]) == Run(Reduce(s2, SetPlaying(true)), []);
  }

  /** `playSong(song)` on the playlists and search pages, and the recently-played
      card's click on the home page: two dispatches. */
  method PlaySong(store: Store, song: Song)
    modifies store
    ensures store.state == Run(old(store.state), PlaySongActions(song))
    ensures store.state == old(store.state).(currentSong := Some(song), isPlaying := true)
  {
    ghost var before := store.state;
    store.Dispatch(SetCurrentSong(song));
    store.Dispatch(SetPlaying(true));
    PlaySongEffect(before, song);
  }

  /** `playPlaylist(playlistId)` on the playlists and home pages: looks the playlist
      and its first song up in the state it was rendered with, then dispatches three
      actions or none. */
  method PlayPlaylist(store: Store, playlistId: string)
    modifies store
    ensures store.state == Run(old(store.state), PlayPlaylistActions(old(store.state), playlistId))
  {
    var state := store.state;
    var playlist := FindPlaylist(state.playlists, playlistId);
    if playlist.Some? && |playlist.value.songs| > 0 {
      var firstSong := FindSong(state.songs, playlist.value.songs[0]);
      if firstSong.Some? {
        store.Dispatch(SetCurrentSong(firstSong.value));
        store.Dispatch(SetCurrentPlaylist(Some(playlistId)));
        store.Dispatch(SetPlaying(true));
        PlayPlaylistEffect(state, playlistId);
      } else {
        PlayPlaylistRefused(state, playlistId);
      }
    } else {
      PlayPlaylistRefused(state, playlistId);
    }
  }
}
