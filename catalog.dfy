/** Resolving a playlist's song ids against the song list: look each id up with
    `find` and drop the ids that are not found. The playlists page and the server
    both do this. */
module Catalog {
  import opened JsArray
  import opened MusicContext

  /** `ids.map(id => songs.find(s => s.id === id))` */
  function LookUp(songs: seq<Song>, ids: seq<string>): (r: seq<Option<Song>>)
    ensures |r| == |ids|
    ensures forall k :: 0 <= k < |ids| ==> r[k] == FindSong(songs, ids[k])
  {
    if ids == [] then [] else [FindSong(songs, ids[0])] + LookUp(songs, ids[1..])
  }

  /** `ids.map(id => songs.find(s => s.id === id)).filter(Boolean)` */
  function Resolve(songs: seq<Song>, ids: seq<string>): (r: seq<Song>)
    ensures |r| <= |ids|
    ensures forall song :: song in r <==> exists k :: 0 <= k < |ids| && FindSong(songs, ids[k]) == Some(song)
  {
    var found := LookUp(songs, ids);
    assert forall song :: Some(song) in found <==> exists k :: 0 <= k < |ids| && found[k] == Some(song);
    Somes(found)
  }

  /** Every resolved song is a song of the list, with an id from the playlist. */
  lemma ResolvedFromCatalog(songs: seq<Song>, ids: seq<string>)
    ensures forall song :: song in Resolve(songs, ids) ==> song in songs && song.id in ids
  {
    forall song | song in Resolve(songs, ids)
      ensures song in songs && song.id in ids
    {
      var k :| 0 <= k < |ids| && FindSong(songs, ids[k]) == Some(song);
    }
  }

  lemma {:induction false} LookUpAppend(songs: seq<Song>, a: seq<string>, b: seq<string>)
    ensures LookUp(songs, a + b) == LookUp(songs, a) + LookUp(songs, b)
  {
    var l, la, lb := LookUp(songs, a + b), LookUp(songs, a), LookUp(songs, b);
    assert |l| == |la + lb|;
    forall k | 0 <= k < |l| ensures l[k] == (la + lb)[k] {
      if k < |a| { assert (a + b)[k] == a[k]; } else { assert (a + b)[k] == b[k - |a|]; }
    }
  }

  /** Resolution works id by id: resolving a concatenation concatenates the results,
      so the resolved songs keep the order of their ids. */
  lemma ResolveAppend(songs: seq<Song>, a: seq<string>, b: seq<string>)
    ensures Resolve(songs, a + b) == Resolve(songs, a) + Resolve(songs, b)
  {
    LookUpAppend(songs, a, b);
    SomesAppend(LookUp(songs, a), LookUp(songs, b));
  }

  /** One id resolves to the first song with that id, or to nothing. */
  lemma ResolveOne(songs: seq<Song>, id: string)
    ensures FindSong(songs, id).Some? ==> Resolve(songs, [id]) == [FindSong(songs, id).value]
    ensures FindSong(songs, id).None? ==> Resolve(songs, [id]) == []
  {
    var found := LookUp(songs, [id]);
    assert found == [FindSong(songs, id)];
    assert found[1..] == [];
    assert Somes(found[1..]) == [];
  }

  /** An id with no song is dropped without disturbing its neighbours. */
  lemma ResolveDropsMissing(songs: seq<Song>, a: seq<string>, id: string, b: seq<string>)
    requires FindSong(songs, id).None?
    ensures Resolve(songs, a + [id] + b) == Resolve(songs, a + b)
  {
    ResolveAppend(songs, a + [id], b);
    ResolveAppend(songs, a, [id]);
    ResolveOne(songs, id);
    ResolveAppend(songs, a, b);
  }

  /** When every id has a song, resolution keeps the length and puts at position k
      the first song whose id is ids[k]. */
  lemma ResolveAllFound(songs: seq<Song>, ids: seq<string>)
    requires forall k :: 0 <= k < |ids| ==> FindSong(songs, ids[k]).Some?
    ensures |Resolve(songs, ids)| == |ids|
    ensures forall k :: 0 <= k < |ids| ==> Resolve(songs, ids)[k] == FindSong(songs, ids[k]).value
  {
    SomesAllPresent(LookUp(songs, ids));
  }
}
