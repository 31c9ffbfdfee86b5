/**
 * The background music player: a looping music track that plays apart
 * from any meditation session, controlled by the music preferences.
 *
 * The device audio player is reduced to its observable state (an
 * `AudioPlayer` value: sounding or not, and its volume). Whether a
 * track's file is in the app bundle, and whether the audio player can open
 * it, are oracles: the two sets of an `Assets` value.
 */
module Music {
  import opened Optional
  import opened Models

  /**
   * The audio files of the app: those found in the bundle, and those the
   * device audio player opens when asked to.
   */
  datatype Assets<T> = Assets(found: set<T>, opening: set<T>)

  /** The device audio player object behind the music: sounding or not, and its volume. */
  datatype AudioPlayer = AudioPlayer(running: bool, volume: real)

  /** What the music player holds: the audio player, if one was created, and the published state. */
  datatype MusicState = MusicState(
    audioPlayer: Option<AudioPlayer>,
    isPlaying: bool,
    currentTrack: Option<BackgroundMusicTrack>)

  /** The published `isPlaying` flag never claims music that is not sounding. */
  predicate Consistent(s: MusicState) {
    s.isPlaying ==> s.audioPlayer.Some? && s.audioPlayer.value.running
  }

  /** The state of a freshly created player. */
  const Idle: MusicState := MusicState(None, false, None)

  /** Volume clamped to the audio player's range [0, 1]. */
  function ClampVolume(v: real): (r: real)
    ensures 0.0 <= r <= 1.0
    ensures 0.0 <= v <= 1.0 ==> r == v
    ensures v < 0.0 ==> r == 0.0
    ensures v > 1.0 ==> r == 1.0
  {
    if v < 0.0 then 0.0 else if v > 1.0 then 1.0 else v
  }

  /** `audioPlayer?.stop()` and `audioPlayer?.pause()`: the player, if any, falls silent. */
  function Silenced(p: Option<AudioPlayer>): (r: Option<AudioPlayer>)
    ensures r.Some? <==> p.Some?
    ensures r.Some? ==> !r.value.running && r.value.volume == p.value.volume
  {
    match p
    case None => None
    case Some(a) => Some(a.(running := false))
  }

  /** `stop()` (and `pause()`, which has the same effect on this state): silent, track kept. */
  function Stopped(s: MusicState): (r: MusicState)
    ensures !r.isPlaying && Consistent(r)
    ensures r.currentTrack == s.currentTrack
    ensures r.audioPlayer == Silenced(s.audioPlayer)
  {
    MusicState(Silenced(s.audioPlayer), false, s.currentTrack)
  }

  /** `play()`: resumes an audio player that exists and is silent; otherwise nothing happens. */
  function Resumed(s: MusicState): (r: MusicState)
    ensures s.audioPlayer.Some? && !s.audioPlayer.value.running ==>
              && r.isPlaying && r.currentTrack == s.currentTrack
              && r.audioPlayer == Some(s.audioPlayer.value.(running := true))
    ensures !(s.audioPlayer.Some? && !s.audioPlayer.value.running) ==> r == s
    ensures Consistent(s) ==> Consistent(r)
  {
    match s.audioPlayer
    case Some(a) =>
      if !a.running then MusicState(Some(a.(running := true)), true, s.currentTrack) else s
    case None => s
  }

  /** `setVolume`: the audio player, if any, takes the clamped volume; nothing else changes. */
  function VolumeSet(s: MusicState, v: real): (r: MusicState)
    ensures r.isPlaying == s.isPlaying && r.currentTrack == s.currentTrack
    ensures r.audioPlayer.Some? <==> s.audioPlayer.Some?
    ensures r.audioPlayer.Some? ==>
              r.audioPlayer.value == s.audioPlayer.value.(volume := ClampVolume(v))
    ensures Consistent(s) ==> Consistent(r)
  {
    match s.audioPlayer
    case Some(a) => s.(audioPlayer := Some(a.(volume := ClampVolume(v))))
    case None => s
  }

  /**
   * `playTrack`: with music disabled the player stops; when the track's
   * file is missing the track is forgotten and the flag cleared (a player
   * that was already sounding is left alone). Otherwise a sounding player
   * is stopped first; then a new audio player loops the track at the
   * preferred volume, unclamped, or, when it cannot open the file, the
   * track is forgotten, the flag cleared and the music stopped before
   * stays silent.
   */
  function TrackPlayed(s: MusicState, track: BackgroundMusicTrack, prefs: UserPreferences,
                       bundled: Assets<BackgroundMusicTrack>): (r: MusicState)
    ensures !prefs.enableBackgroundMusic ==> r == Stopped(s)
    ensures prefs.enableBackgroundMusic && track !in bundled.found ==>
              r == s.(currentTrack := None, isPlaying := false)
    ensures prefs.enableBackgroundMusic && track in bundled.found && track !in bundled.opening ==>
              && !r.isPlaying && r.currentTrack == None
              && r.audioPlayer == (if s.isPlaying then Silenced(s.audioPlayer) else s.audioPlayer)
              && (s.isPlaying ==> r.audioPlayer.None? || !r.audioPlayer.value.running)
    ensures prefs.enableBackgroundMusic && track in bundled.found && track in bundled.opening ==>
              && r.isPlaying && r.currentTrack == Some(track)
              && r.audioPlayer == Some(AudioPlayer(true, prefs.backgroundMusicVolume))
    ensures Consistent(r)
  {
    if !prefs.enableBackgroundMusic then Stopped(s)
    else if track !in bundled.found then s.(currentTrack := None, isPlaying := false)
    else
      var before := if s.audioPlayer.Some? && s.isPlaying then Stopped(s) else s;
      if track !in bundled.opening then before.(isPlaying := false, currentTrack := None)
      else MusicState(Some(AudioPlayer(true, prefs.backgroundMusicVolume)), true, Some(track))
  }

  /**
   * `updatePlayback`: bring the player in line with the (possibly new)
   * preferences. The published flag stays honest, nothing plays while
   * music is disabled, and a playing track keeps playing while it is
   * enabled.
   */
  function PlaybackUpdated(s: MusicState, prefs: UserPreferences,
                           bundled: Assets<BackgroundMusicTrack>): (r: MusicState)
    ensures Consistent(s) ==> Consistent(r)
    ensures !prefs.enableBackgroundMusic ==> !r.isPlaying && r.currentTrack == s.currentTrack
    ensures prefs.enableBackgroundMusic && s.isPlaying && s.currentTrack.Some? ==>
              r.isPlaying && r.currentTrack == s.currentTrack
  {
    if !prefs.enableBackgroundMusic then Stopped(s)
    else match s.currentTrack
      case Some(t) =>
        if !s.isPlaying then TrackPlayed(s, t, prefs, bundled)
        else VolumeSet(s, prefs.backgroundMusicVolume)
      case None => TrackPlayed(s, AllTracks[0], prefs, bundled)
  }

  /**
   * The decision table of `updatePlayback`: disabled stops; a remembered
   * but silent track is replayed; a playing track only has its volume
   * changed; with no track the first track (Peaceful Piano) is played.
   */
  lemma PlaybackUpdatedCases(s: MusicState, prefs: UserPreferences, bundled: Assets<BackgroundMusicTrack>)
    ensures var r := PlaybackUpdated(s, prefs, bundled);
      && (!prefs.enableBackgroundMusic ==> r == Stopped(s))
      && (prefs.enableBackgroundMusic && s.currentTrack.Some? && !s.isPlaying ==>
            r == TrackPlayed(s, s.currentTrack.value, prefs, bundled))
      && (prefs.enableBackgroundMusic && s.currentTrack.Some? && s.isPlaying ==>
            r == VolumeSet(s, prefs.backgroundMusicVolume))
      && (prefs.enableBackgroundMusic && s.currentTrack.None? ==>
            r == TrackPlayed(s, PeacefulPiano, prefs, bundled))
  {
  }

  /**
   * `updatePlayback` never consults the selected track: changing only the
   * selection in the preferences changes nothing, and the track afterwards
   * is the one before, Peaceful Piano, or none.
   */
  lemma PlaybackIgnoresSelectedTrack(s: MusicState, prefs: UserPreferences,
                                     bundled: Assets<BackgroundMusicTrack>, t: BackgroundMusicTrack)
    ensures PlaybackUpdated(s, prefs.(selectedBackgroundMusicTrack := t), bundled)
            == PlaybackUpdated(s, prefs, bundled)
    ensures var r := PlaybackUpdated(s, prefs, bundled);
            r.currentTrack == s.currentTrack || r.currentTrack == Some(PeacefulPiano) || r.currentTrack == None
  {
  }

  class MusicPlayer {
    /** The tracks whose file is found in the bundle, and those whose file opens. */
    const bundledTracks: Assets<BackgroundMusicTrack>

    var audioPlayer: Option<AudioPlayer>
    var isPlaying: bool
    var currentTrack: Option<BackgroundMusicTrack>

    function State(): MusicState
      reads this
    {
      MusicState(audioPlayer, isPlaying, currentTrack)
    }

    ghost predicate Valid()
      reads this
    {
      Consistent(State())
    }

    constructor (bundledTracks: Assets<BackgroundMusicTrack>)
      ensures Valid() && State() == Idle
      ensures this.bundledTracks == bundledTracks
    {
      this.bundledTracks := bundledTracks;
      audioPlayer, isPlaying, currentTrack := None, false, None;
    }

    method PlayTrack(track: BackgroundMusicTrack, prefs: UserPreferences)
      modifies this
      ensures Valid()
      ensures State() == TrackPlayed(old(State()), track, prefs, bundledTracks)
    {
      if !prefs.enableBackgroundMusic {
        Stop();
        return;
      }
      if track !in bundledTracks.found {
        currentTrack := None;
        isPlaying := false;
        return;
      }
      if audioPlayer.Some? && isPlaying {
        Stop();
      }
      if track !in bundledTracks.opening {
        isPlaying := false;
        currentTrack := None;
        return;
      }
      audioPlayer := Some(AudioPlayer(true, prefs.backgroundMusicVolume));
      isPlaying := true;
      currentTrack := Some(track);
    }

    method SetVolume(v: real)
      requires Valid()
      modifies this
      ensures Valid()
      ensures State() == VolumeSet(old(State()), v)
    {
      if audioPlayer.Some? {
        audioPlayer := Some(audioPlayer.value.(volume := ClampVolume(v)));
      }
    }

    method Play()
      requires Valid()
      modifies this
      ensures Valid()
      ensures State() == Resumed(old(State()))
    {
      if audioPlayer.Some? && !audioPlayer.value.running {
        audioPlayer := Some(audioPlayer.value.(running := true));
        isPlaying := true;
      }
    }

    method Pause()
      modifies this
      ensures Valid()
      ensures State() == Stopped(old(State()))
    {
      audioPlayer := Silenced(audioPlayer);
      isPlaying := false;
    }

    method Stop()
      modifies this
      ensures Valid()
      ensures State() == Stopped(old(State()))
    {
      audioPlayer := Silenced(audioPlayer);
      isPlaying := false;
    }

    method UpdatePlayback(prefs: UserPreferences)
      requires Valid()
      modifies this
      ensures Valid()
      ensures State() == PlaybackUpdated(old(State()), prefs, bundledTracks)
    {
      if !prefs.enableBackgroundMusic {
        Stop();
      } else if currentTrack.Some? {
        if !isPlaying {
          PlayTrack(currentTrack.value, prefs);
        } else {
          SetVolume(prefs.backgroundMusicVolume);
        }
      } else {
        PlayTrack(AllTracks[0], prefs);
      }
    }
  }
}
