/** The playlists page: the songs shown under each playlist and their total length.
    Its play handlers are `Playback.PlaySong` and `Playback.PlayPlaylist`, its
    duration text `TimeFormat.FormatDuration`. */
module Playlists {
  import opened JsArray
  import opened MusicContext
  import opened Catalog
  import Server

  /** `getPlaylistSongs(playlistId)`: nothing for an unknown playlist, otherwise its
      ids resolved against the loaded songs. */
  function GetPlaylistSongs(state: MusicState, playlistId: string): (r: seq<Song>)
    ensures FindPlaylist(state.playlists, playlistId).None? ==> r == []
    ensures FindPlaylist(state.playlists, playlistId).Some? ==>
      var ids := FindPlaylist(state.playlists, playlistId).value.songs;
      && |r| <= |ids|
      && forall song :: song in r <==> exists k :: 0 <= k < |ids| && FindSong(state.songs, ids[k]) == Some(song)
  {
    var playlist := FindPlaylist(state.playlists, playlistId);
    if playlist.None? then [] else Resolve(state.songs, playlist.value.songs)
  }

  /** The `reduce` that adds up the songs' `duration`s, as a left fold from `acc`:
      no smaller than `acc`, and every song adds at least its own duration. */
  function SumDurations(acc: nat, songs: seq<Song>): (r: nat)
    ensures acc <= r
    ensures forall k :: 0 <= k < |songs| ==> acc + songs[k].duration <= r
    decreases |songs|
  {
    if songs == [] then acc
    else
      var r := SumDurations(acc + songs[0].duration, songs[1..]);
      assert forall k :: 1 <= k < |songs| ==> songs[k] == songs[1..][k - 1];
      r
  }

  /** `totalDuration` of a list of songs, the fold started at 0: nothing for no
      songs, and never less than any one song's duration. */
  function TotalDuration(songs: seq<Song>): (r: nat)
    ensures songs == [] ==> r == 0
    ensures forall k :: 0 <= k < |songs| ==> songs[k].duration <= r
  {
    SumDurations(0, songs)
  }

  /** The fold's start value only shifts the result. */
  lemma {:induction false} SumDurationsShift(acc: nat, songs: seq<Song>)
    ensures SumDurations(acc, songs) == acc + TotalDuration(songs)
    decreases |songs|
  {
    if songs != [] {
      SumDurationsShift(acc + songs[0].duration, songs[1..]);
      SumDurationsShift(songs[0].duration, songs[1..]);
    }
  }

  /** The total is additive over concatenation, and one song contributes its own
      duration: the total is the sum of the durations. */
  lemma {:induction false} TotalDurationAppend(a: seq<Song>, b: seq<Song>)
    ensures TotalDuration(a + b) == TotalDuration(a) + TotalDuration(b)
    decreases |a|
  {
    if a == [] {
      assert a + b == b;
    } else {
      assert (a + b)[1..] == a[1..] + b;
      SumDurationsShift(a[0].duration, a[1..] + b);
      SumDurationsShift(a[0].duration, a[1..]);
      TotalDurationAppend(a[1..], b);
    }
  }

  lemma TotalDurationOne(song: Song)
    ensures TotalDuration([song]) == song.duration
  {
    assert [song][1..] == [];
    assert SumDurations(0, [song]) == SumDurations(song.duration, []);
  }

  /** A playlist's total counts each id whose song was found, once per occurrence of
      the id; an id with no song adds nothing. */
  lemma PlaylistTotalByIds(songs: seq<Song>, a: seq<string>, id: string)
    ensures FindSong(songs, id).Some? ==>
      TotalDuration(Resolve(songs, a + [id])) == TotalDuration(Resolve(songs, a)) + FindSong(songs, id).value.duration
    ensures FindSong(songs, id).None? ==>
      TotalDuration(Resolve(songs, a + [id])) == TotalDuration(Resolve(songs, a))
  {
    ResolveAppend(songs, a, [id]);
    ResolveOne(songs, id);
    TotalDurationAppend(Resolve(songs, a), Resolve(songs, [id]));
    if FindSong(songs, id).Some? {
      TotalDurationOne(FindSong(songs, id).value);
    } else {
      assert Resolve(songs, a) + [] == Resolve(songs, a);
    }
  }

  /** Once the page has loaded the service's two lists, it shows for every playlist
      exactly the songs the service's own playlist route answers with, and for an
      id the service does not know it shows nothing where the service answers 404. */
  lemma PageAgreesWithServer(s: MusicState, playlistId: string)
    requires s.songs == Server.CatalogSongs && s.playlists == Server.CatalogPlaylists
    ensures var resp := Server.Serve(Server.GetPlaylist(playlistId));
      && (resp.status == 404 ==> GetPlaylistSongs(s, playlistId) == [])
      && (resp.status == 200 ==> GetPlaylistSongs(s, playlistId) == resp.body.songs)
  {
    if FindPlaylist(s.playlists, playlistId).Some? {
      Server.PlaylistDetailFields(s.songs, s.playlists, playlistId);
    }
  }
}
