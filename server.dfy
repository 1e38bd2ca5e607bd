/** The mock catalog service: a constant list of songs, a constant list of
    playlists, and the three read routes over them. */
module Server {
  import opened JsArray
  import opened MusicContext
  import opened Catalog

  const CatalogSongs: seq<Song> := [
    Song("1", "Blinding Lights", "The Weeknd",
      "https://images.pexels.com/photos/1105666/pexels-photo-1105666.jpeg?auto=compress&cs=tinysrgb&w=300",
      "https://www.soundjay.com/misc/sounds/magic-chime-02.mp3", 200),
    Song("2", "Watermelon Sugar", "Harry Styles",
      "https://images.pexels.com/photos/1694900/pexels-photo-1694900.jpeg?auto=compress&cs=tinysrgb&w=300",
      "https://www.soundjay.com/misc/sounds/magic-chime-02.mp3", 174),
    Song("3", "Good 4 U", "Olivia Rodrigo",
      "https://images.pexels.com/photos/1040945/pexels-photo-1040945.jpeg?auto=compress&cs=tinysrgb&w=300",
      "https://www.soundjay.com/misc/sounds/magic-chime-02.mp3", 178),
    Song("4", "Levitating", "Dua Lipa",
      "https://images.pexels.com/photos/1105666/pexels-photo-1105666.jpeg?auto=compress&cs=tinysrgb&w=300",
      "https://www.soundjay.com/misc/sounds/magic-chime-02.mp3", 203),
    Song("5", "Stay", "The Kid LAROI, Justin Bieber",
      "https://images.pexels.com/photos/1694900/pexels-photo-1694900.jpeg?auto=compress&cs=tinysrgb&w=300",
      "https://www.soundjay.com/misc/sounds/magic-chime-02.mp3", 141),
    Song("6", "Industry Baby", "Lil Nas X, Jack Harlow",
      "https://images.pexels.com/photos/1040945/pexels-photo-1040945.jpeg?auto=compress&cs=tinysrgb&w=300",
      "https://www.soundjay.com/misc/sounds/magic-chime-02.mp3", 212),
    Song("7", "Heat Waves", "Glass Animals",
      "https://images.pexels.com/photos/1105666/pexels-photo-1105666.jpeg?auto=compress&cs=tinysrgb&w=300",
      "https://www.soundjay.com/misc/sounds/magic-chime-02.mp3", 238),
    Song("8", "As It Was", "Harry Styles",
      "https://images.pexels.com/photos/1694900/pexels-photo-1694900.jpeg?auto=compress&cs=tinysrgb&w=300",
      "https://www.soundjay.com/misc/sounds/magic-chime-02.mp3", 167)
  ]

  const CatalogPlaylists: seq<Playlist> := [
    Playlist("playlist1", "Today's Top Hits",
      "https://images.pexels.com/photos/1105666/pexels-photo-1105666.jpeg?auto=compress&cs=tinysrgb&w=400",
      ["1", "2", "3", "4"], "The hottest tracks right now"),
    Playlist("playlist2", "Pop Rising",
      "https://images.pexels.com/photos/1694900/pexels-photo-1694900.jpeg?auto=compress&cs=tinysrgb&w=400",
      ["2", "4", "5", "8"], "The future sound of pop music"),
    Playlist("playlist3", "Viral Hits",
      "https://images.pexels.com/photos/1040945/pexels-photo-1040945.jpeg?auto=compress&cs=tinysrgb&w=400",
      ["3", "5", "6", "7"], "Songs trending everywhere"),
    Playlist("playlist4", "Chill Vibes",
      "https://images.pexels.com/photos/1708936/pexels-photo-1708936.jpeg?auto=compress&cs=tinysrgb&w=400",
      ["1", "7", "8"], "Relax and unwind with these tracks")
  ]

  /** The three GET routes. */
  datatype Request = GetSongs | GetPlaylists | GetPlaylist(id: string)

  /** A JSON body: the song array, the playlist array, one playlist whose `songs`
      holds song records instead of ids, or an error object. */
  datatype Body =
    | SongList(songs: seq<Song>)
    | PlaylistList(playlists: seq<Playlist>)
    | PlaylistDetail(id: string, name: string, coverImage: string, songs: seq<Song>, description: string)
    | ErrorBody(error: string)

  datatype Response = Response(status: nat, body: Body)

  /** The route handlers over a given catalog. */
  function Handle(songs: seq<Song>, playlists: seq<Playlist>, req: Request): (r: Response)
    ensures req.GetSongs? ==> r == Response(200, SongList(songs))
    ensures req.GetPlaylists? ==> r == Response(200, PlaylistList(playlists))
    ensures req.GetPlaylist? ==> (r.status == 404 <==> forall j :: 0 <= j < |playlists| ==> playlists[j].id != req.id)
    ensures req.GetPlaylist? && r.status == 404 ==> r.body == ErrorBody("Playlist not found")
    ensures req.GetPlaylist? && r.status != 404 ==>
      && r.status == 200 && r.body.PlaylistDetail?
      && r.body.id == req.id
      && |r.body.songs| <= |FindPlaylist(playlists, req.id).value.songs|
      && forall song :: song in r.body.songs ==> song in songs
  {
    match req
    case GetSongs => Response(200, SongList(songs))
    case GetPlaylists => Response(200, PlaylistList(playlists))
    case GetPlaylist(id) =>
      var playlist := FindPlaylist(playlists, id);
      if playlist.None? then Response(404, ErrorBody("Playlist not found"))
      else
        var p := playlist.value;
        ResolvedFromCatalog(songs, p.songs);
        Response(200, PlaylistDetail(p.id, p.name, p.coverImage, Resolve(songs, p.songs), p.description))
  }

  /** A found playlist is answered with all its own fields and its ids resolved:
      in id order, with ids that have no song dropped. */
  lemma PlaylistDetailFields(songs: seq<Song>, playlists: seq<Playlist>, id: string)
    requires FindPlaylist(playlists, id).Some?
    ensures var p := FindPlaylist(playlists, id).value;
      var b := Handle(songs, playlists, GetPlaylist(id)).body;
      && b.PlaylistDetail?
      && b.id == p.id && b.name == p.name && b.coverImage == p.coverImage && b.description == p.description
      && b.songs == Resolve(songs, p.songs)
  {
  }

  /** The service as deployed, over its constant catalog. */
  function Serve(req: Request): (r: Response)
    ensures r.status == 200 || r.status == 404
    ensures r.status == 404 <==> req.GetPlaylist? && req.id !in {"playlist1", "playlist2", "playlist3", "playlist4"}
  {
    Handle(CatalogSongs, CatalogPlaylists, req)
  }

  /** Song k of the catalog has the one-digit id k + 1. */
  lemma CatalogSongIds()
    ensures forall k :: 0 <= k < |CatalogSongs| ==> CatalogSongs[k].id == [('1' as int + k) as char]
  {
  }

  /** The catalog's song ids are pairwise distinct and every duration is positive. */
  lemma CatalogSongsWellFormed()
    ensures UniqueIds(CatalogSongs)
    ensures forall k :: 0 <= k < |CatalogSongs| ==> CatalogSongs[k].duration > 0
  {
    CatalogSongIds();
    forall i, j | 0 <= i < j < |CatalogSongs| ensures CatalogSongs[i].id != CatalogSongs[j].id {
      assert CatalogSongs[i].id[0] != CatalogSongs[j].id[0];
    }
  }

  /** Song k of the catalog is the one find returns for its id. */
  lemma FindCatalogSong(k: int)
    requires 0 <= k < |CatalogSongs|
    ensures FindSong(CatalogSongs, CatalogSongs[k].id) == Some(CatalogSongs[k])
  {
    CatalogSongsWellFormed();
    FindSongFirst(CatalogSongs, CatalogSongs[k].id, k);
  }

  /** Song k of the catalog, found by its id, is there. */
  lemma CatalogIdFound(k: int, id: string)
    requires 0 <= k < |CatalogSongs| && CatalogSongs[k].id == id
    ensures FindSong(CatalogSongs, id).Some?
  {
    FindCatalogSong(k);
  }

  /** Every id a catalog playlist refers to has a song, so resolution keeps every id. */
  lemma CatalogReferencesResolve()
    ensures forall j, k :: 0 <= j < |CatalogPlaylists| && 0 <= k < |CatalogPlaylists[j].songs| ==>
      FindSong(CatalogSongs, CatalogPlaylists[j].songs[k]).Some?
  {
    forall j, k | 0 <= j < |CatalogPlaylists| && 0 <= k < |CatalogPlaylists[j].songs|
      ensures FindSong(CatalogSongs, CatalogPlaylists[j].songs[k]).Some?
    {
      var id := CatalogPlaylists[j].songs[k];
      var i := IdIndex(id);
      CatalogIdFound(i, id);
    }
  }

  /** Where a playlist id sits in the catalog. */
  function IdIndex(id: string): (i: int)
    requires exists j, k :: 0 <= j < |CatalogPlaylists| && 0 <= k < |CatalogPlaylists[j].songs| && CatalogPlaylists[j].songs[k] == id
    ensures 0 <= i < |CatalogSongs| && CatalogSongs[i].id == id
  {
    if id == "1" then 0 else if id == "2" then 1 else if id == "3" then 2 else if id == "4" then 3
    else if id == "5" then 4 else if id == "6" then 5 else if id == "7" then 6 else 7
  }

  /** The list routes return the catalog arrays unchanged, and an unknown id gets
      the 404 with its error object. */
  lemma ServeLists()
    ensures Serve(GetSongs) == Response(200, SongList(CatalogSongs))
    ensures Serve(GetPlaylists) == Response(200, PlaylistList(CatalogPlaylists))
    ensures Serve(GetPlaylist("playlist5")) == Response(404, ErrorBody("Playlist not found"))
  {
    assert forall j :: 0 <= j < |CatalogPlaylists| ==> CatalogPlaylists[j].id != "playlist5";
  }

  /** The catalog's playlist ids are pairwise distinct. */
  lemma CatalogPlaylistIdsDistinct()
    ensures forall i, j :: 0 <= i < j < |CatalogPlaylists| ==> CatalogPlaylists[i].id != CatalogPlaylists[j].id
  {
  }

  /** Over a catalog whose playlist ids are distinct and whose references all
      resolve, a playlist is answered whole: its own fields, and one song per id,
      in id order. */
  lemma HandleWholePlaylist(songs: seq<Song>, playlists: seq<Playlist>, j: int)
    requires 0 <= j < |playlists|
    requires forall i :: 0 <= i < j ==> playlists[i].id != playlists[j].id
    requires forall k :: 0 <= k < |playlists[j].songs| ==> FindSong(songs, playlists[j].songs[k]).Some?
    ensures var p := playlists[j];
      var r := Handle(songs, playlists, GetPlaylist(p.id));
      && r.status == 200
      && r.body == PlaylistDetail(p.id, p.name, p.coverImage, r.body.songs, p.description)
      && |r.body.songs| == |p.songs|
      && forall k :: 0 <= k < |p.songs| ==> r.body.songs[k] in songs && r.body.songs[k].id == p.songs[k]
  {
    var p := playlists[j];
    FindPlaylistFirst(playlists, p.id, j);
    PlaylistDetailFields(songs, playlists, p.id);
    ResolveAllFound(songs, p.songs);
  }

  /** Every catalog playlist is served whole. */
  lemma ServeCatalogPlaylist(j: int)
    requires 0 <= j < |CatalogPlaylists|
    ensures var p := CatalogPlaylists[j];
      var r := Serve(GetPlaylist(p.id));
      && r.status == 200
      && |r.body.songs| == |p.songs|
      && forall k :: 0 <= k < |p.songs| ==> r.body.songs[k] in CatalogSongs && r.body.songs[k].id == p.songs[k]
  {
    CatalogPlaylistIdsDistinct();
    CatalogReferencesResolve();
    HandleWholePlaylist(CatalogSongs, CatalogPlaylists, j);
  }
}
