/** The search page: the songs whose title or artist contains the query, ignoring
    case. Its play handler is `Playback.PlaySong`, its duration text
    `TimeFormat.FormatDuration`. */
module Search {
  import opened JsArray
  import opened JsString
  import opened MusicContext

  /** The song's lowercased title or lowercased artist includes the lowercased
      query, that is, the query occurs at some position of one of them. */
  function Matches(song: Song, query: string): (r: bool)
    ensures r <==> Occurs(ToLower(song.title), ToLower(query)) || Occurs(ToLower(song.artist), ToLower(query))
  {
    IncludesIff(ToLower(song.title), ToLower(query));
    IncludesIff(ToLower(song.artist), ToLower(query));
    Includes(ToLower(song.title), ToLower(query)) || Includes(ToLower(song.artist), ToLower(query))
  }

  /** `filteredSongs`: nothing for a blank query, otherwise the matching songs in
      catalog order. The query is trimmed only for the blank test, not for matching. */
  function FilteredSongs(songs: seq<Song>, query: string): (r: seq<Song>)
    ensures IsBlank(query) ==> r == []
    ensures IsSubsequence(r, songs)
    ensures forall song :: song in r <==> !IsBlank(query) && song in songs && Matches(song, query)
  {
    if Trim(query) == [] then [] else Filter(songs, (song: Song) => Matches(song, query))
  }

  /** Every matching song is kept as often as the list holds it, and no other
      song is kept at all. */
  lemma FilteredSongsCount(songs: seq<Song>, query: string, song: Song)
    ensures multiset(FilteredSongs(songs, query))[song] ==
      if !IsBlank(query) && Matches(song, query) then multiset(songs)[song] else 0
  {
    if !IsBlank(query) {
      FilterCount(songs, (s: Song) => Matches(s, query), song);
    }
  }

  /** The search works song by song: searching two lists one after the other
      gives the two results one after the other. */
  lemma FilteredSongsAppend(a: seq<Song>, b: seq<Song>, query: string)
    ensures FilteredSongs(a + b, query) == FilteredSongs(a, query) + FilteredSongs(b, query)
  {
    if !IsBlank(query) {
      FilterAppend(a, b, (s: Song) => Matches(s, query));
    }
  }

  /** A query and its lowercase form give the same results, in the same order. */
  lemma CaseInsensitive(songs: seq<Song>, query: string)
    ensures FilteredSongs(songs, ToLower(query)) == FilteredSongs(songs, query)
  {
    ToLowerKeepsBlank(query);
    ToLowerIdempotent(query);
    if !IsBlank(query) {
      forall song: Song ensures Matches(song, ToLower(query)) == Matches(song, query) {
        assert ToLower(ToLower(query)) == ToLower(query);
      }
      FilterAgrees(songs, (song: Song) => Matches(song, ToLower(query)), (song: Song) => Matches(song, query));
    }
  }

  /** The query is not trimmed for matching: " stay" is not blank, yet it does not
      find a song titled "Stay", because the leading space is part of what is searched. */
  lemma UntrimmedQuery(song: Song)
    requires song.title == "Stay" && !Occurs(ToLower(song.artist), " stay")
    ensures FilteredSongs([song], "stay") == [song]
    ensures FilteredSongs([song], " stay") == []
  {
    assert ToLower("stay") == "stay";
    assert ToLower(" stay") == " stay";
    assert OccursAt(ToLower(song.title), "stay", 0);
    assert Matches(song, "stay");
    assert !IsBlank("stay") by { assert !IsJsWhitespace("stay"[0]); }
    assert !IsBlank(" stay") by { assert !IsJsWhitespace(" stay"[1]); }
    assert !Occurs(ToLower(song.title), " stay") by {
      assert |ToLower(song.title)| == 4;
    }
    assert !Matches(song, " stay");
  }
}
