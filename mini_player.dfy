/** The mini player: hidden without a current song, otherwise the song, the
    position and the length as text, three control buttons and a volume slider. */
module MiniPlayer {
  import opened JsArray
  import opened MusicContext
  import opened TimeFormat

  /** The three buttons: skip back, play/pause, skip forward. */
  datatype Control = Back | PlayPause | Forward

  /** The action each button dispatches. */
  function ControlAction(c: Control): (a: MusicAction)
    ensures c == Back <==> a == PreviousSong
    ensures c == PlayPause <==> a == TogglePlay
    ensures c == Forward <==> a == NextSong
  {
    match c
    case Back => PreviousSong
    case PlayPause => TogglePlay
    case Forward => NextSong
  }

  /** What the player shows: cover, title and artist of the current song, the pause
      icon while playing (the play icon otherwise), and the position and length. */
  datatype PlayerView = PlayerView(
    albumCover: string, title: string, artist: string,
    showsPause: bool, elapsed: string, total: string)

  /** Nothing without a current song; otherwise the view of the session state. */
  function Render(s: MusicState): (v: Option<PlayerView>)
    ensures v.None? <==> s.currentSong.None?
    ensures v.Some? ==> v.value.albumCover == s.currentSong.value.albumCover
    ensures v.Some? ==> v.value.title == s.currentSong.value.title && v.value.artist == s.currentSong.value.artist
    ensures v.Some? ==> v.value.showsPause == s.isPlaying
    ensures v.Some? && s.currentTime >= 0.0 ==> v.value.elapsed == FormatDuration(s.currentTime.Floor)
    ensures v.Some? && s.duration >= 0.0 ==> v.value.total == FormatDuration(s.duration.Floor)
  {
    match s.currentSong
    case None => None
    case Some(song) =>
      Some(PlayerView(song.albumCover, song.title, song.artist, s.isPlaying,
                      FormatTime(s.currentTime), FormatTime(s.duration)))
  }

  /** Once shown, the player stays shown whatever button is pressed: back and
      forward land on a song of the loaded list (or leave the song as it was when the
      list is empty), and play/pause flips the icon and nothing else. */
  lemma ControlsKeepPlayerShown(s: MusicState, c: Control)
    requires Render(s).Some?
    ensures Render(Reduce(s, ControlAction(c))).Some?
    ensures c != PlayPause && s.songs != [] ==> Reduce(s, ControlAction(c)).currentSong.value in s.songs
    ensures c != PlayPause && s.songs == [] ==> Reduce(s, ControlAction(c)) == s
    ensures c == PlayPause ==> Render(Reduce(s, ControlAction(c))).value == Render(s).value.(showsPause := !s.isPlaying)
  {
    if c == PlayPause {
      TogglePlayInvolution(s);
    } else if s.songs != [] {
      NavigationStaysInCatalog(s, ControlAction(c));
    } else {
      NavigationIdle(s, ControlAction(c));
    }
  }

  /** Pressing forward then back, or back then forward, returns to the same state
      when song ids are distinct and the current song is one of the list; pressing
      play/pause twice does too, in every state. */
  lemma ControlsUndo(s: MusicState)
    ensures Reduce(Reduce(s, ControlAction(PlayPause)), ControlAction(PlayPause)) == s
    ensures UniqueIds(s.songs) && s.currentSong.Some? && s.currentSong.value in s.songs ==>
      && Reduce(Reduce(s, ControlAction(Forward)), ControlAction(Back)) == s
      && Reduce(Reduce(s, ControlAction(Back)), ControlAction(Forward)) == s
  {
    TogglePlayInvolution(s);
    if UniqueIds(s.songs) && s.currentSong.Some? && s.currentSong.value in s.songs {
      NextPreviousInverse(s);
    }
  }

  /** The slider position `k` of `min="0" max="1" step="0.01"`. */
  function SliderStep(k: int): real
  {
    k as real / 100.0
  }

  /** The slider's values: the multiples of 0.01 from 0 to 1. */
  predicate SliderValue(level: real)
  {
    exists k: int :: 0 <= k <= 100 && level == SliderStep(k)
  }

  /** `handleVolumeChange`: the parsed slider value, dispatched as SET_VOLUME. */
  function VolumeAction(level: real): (a: MusicAction)
    ensures a.IsSetter() && FieldOf(a) == Some(VolumeField)
    ensures forall s :: Reduce(s, a) == s.(volume := level)
  {
    SetVolume(level)
  }

  /** The volume is stored exactly as parsed, with no clamping; it lies in [0, 1]
      only because the slider offers nothing else. */
  lemma VolumeStoredAsGiven(s: MusicState, level: real)
    ensures Reduce(s, VolumeAction(level)) == s.(volume := level)
    ensures SliderValue(level) ==> 0.0 <= Reduce(s, VolumeAction(level)).volume <= 1.0
  {
  }

  /** A button press. */
  method OnControl(store: Store, c: Control)
    modifies store
    ensures store.state == Reduce(old(store.state), ControlAction(c))
  {
    store.Dispatch(ControlAction(c));
  }

  /** A slider change, with the value already parsed. */
  method OnVolumeChange(store: Store, level: real)
    modifies store
    ensures store.state == old(store.state).(volume := level)
  {
    store.Dispatch(VolumeAction(level));
  }
}
