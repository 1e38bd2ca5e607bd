/** The home page: the featured playlists (played with `Playback.PlayPlaylist`) and
    the recently-played row, whose cards play with `Playback.PlaySong`. */
module Home {
  import opened JsArray
  import opened MusicContext
  import opened Playback

  /** `songs.slice(0, 6)`: the first six songs, or all of them when there are fewer. */
  function RecentlyPlayed(songs: seq<Song>): (r: seq<Song>)
    ensures |r| == if |songs| < 6 then |songs| else 6
    ensures forall k :: 0 <= k < |r| ==> r[k] == songs[k]
  {
    if |songs| < 6 then songs else songs[..6]
  }

  /** Clicking the card at position k plays the k-th song of the loaded list,
      leaving the playlist context as it was. */
  lemma RecentCardPlays(s: MusicState, k: int)
    requires 0 <= k < |RecentlyPlayed(s.songs)|
    ensures var t := Run(s, PlaySongActions(RecentlyPlayed(s.songs)[k]));
      && t.currentSong == Some(s.songs[k])
      && t.isPlaying
      && t.currentPlaylist == s.currentPlaylist
      && t.songs == s.songs
  {
    PlaySongEffect(s, RecentlyPlayed(s.songs)[k]);
  }
}
