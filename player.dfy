/**
 * The session player: one meditation at a time, counted down by a
 * one-second timer, with pause/resume, clamped skips, and completion
 * that logs the session in the store. While a session with its own
 * ambient sound runs, the separate background music is paused, and the
 * player remembers that it was the one that paused it.
 *
 * The device audio session, the lock-screen controls and the "now
 * playing" information are left out. The ambient sound's audio player is
 * reduced to an `AudioPlayer` value; which sounds have a bundled file, and
 * which of those files the audio player opens, are oracles given at
 * construction. The timer is a flag; each of its
 * one-second firings is a call of `UpdateTimer`.
 */
module Player {
  import opened Optional
  import opened Models
  import opened Music
  import opened DataStore

  /** `1 - remaining / total`: the share of the session already behind. */
  function Progress(remaining: nat, total: nat): (r: real)
    requires total > 0
    ensures remaining <= total ==> 0.0 <= r <= 1.0
    ensures r == 1.0 <==> remaining == 0
    ensures remaining == total ==> r == 0.0
  {
    Quotient(remaining as real, total as real);
    1.0 - remaining as real / total as real
  }

  /** What the proofs need to know of a quotient `a / b` with `b > 0`. */
  lemma Quotient(a: real, b: real)
    requires b > 0.0
    ensures a / b * b == a
    ensures a / b == 0.0 <==> a == 0.0
    ensures a / b == 1.0 <==> a == b
    ensures 0.0 <= a <= b ==> 0.0 <= a / b <= 1.0
  {
    var q := a / b;
    assert q * b == a;
  }

  /** After `k` one-second ticks of a session of `total` seconds the progress is `k / total`. */
  lemma ProgressAfterTicks(total: nat, k: nat)
    requires 0 < total && k <= total
    ensures Progress(total - k, total) == k as real / total as real
  {
    var t, q := total as real, (total - k) as real / total as real;
    assert q * t == t - k as real;
    assert (1.0 - q) * t == k as real;
    assert (k as real / t) * t == k as real;
    var x := 1.0 - q - k as real / t;
    assert x * t == 0.0;
    if x > 0.0 {
      assert x * t > 0.0;
    } else if x < 0.0 {
      assert x * t < 0.0;
    }
  }

  /** The volume of a session's ambient sound. */
  const SessionSoundVolume: real := 0.3

  /** The ambient sound of a session: its audio player, if one exists, and the published flag. */
  datatype SessionSound = SessionSound(player: Option<AudioPlayer>, playing: bool)

  /** `stopBackgroundSound`: the audio player is released and the flag cleared. */
  const SoundStopped: SessionSound := SessionSound(None, false)

  /**
   * `playBackgroundSound`: nothing happens for `.none` or a sound without a
   * bundled file; otherwise the old sound is stopped, and a new looping
   * audio player starts at the session volume, or, when it cannot open the
   * file, nothing sounds any more.
   */
  function SoundPlayed(cur: SessionSound, selected: BackgroundSound, files: Assets<BackgroundSound>): (r: SessionSound)
    ensures selected == NoSound || selected !in files.found ==> r == cur
    ensures selected != NoSound && selected in files.found && selected !in files.opening ==>
              r == SoundStopped
    ensures selected != NoSound && selected in files.found && selected in files.opening ==>
              r.playing && r.player == Some(AudioPlayer(true, SessionSoundVolume))
  {
    if selected == NoSound || selected !in files.found then cur
    else if selected !in files.opening then SoundStopped
    else SessionSound(Some(AudioPlayer(true, SessionSoundVolume)), true)
  }

  /** `backgroundPlayer?.pause()`: the sound falls silent; the published flag is not touched. */
  function SoundPaused(cur: SessionSound): (r: SessionSound)
    ensures r.playing == cur.playing
    ensures r.player == Silenced(cur.player)
  {
    cur.(player := Silenced(cur.player))
  }

  class PlayerViewModel {
    var isPlaying: bool
    var progress: real
    var timeRemaining: nat
    var selectedBackgroundSound: BackgroundSound
    var isBackgroundSoundPlaying: bool
    var backgroundPlayer: Option<AudioPlayer>
    /** Whether the one-second timer is subscribed. */
    var timerRunning: bool
    var totalDuration: nat
    var startTime: Option<Instant>
    /** Whether this player paused the background music and owes it a resume. */
    var mainMusicWasPlayingBeforeMeditation: bool
    var currentMeditation: Option<MeditationOption>

    /**
     * The sounds with a file name whose file was found in the bundle at
     * set-up, and the sounds whose file the audio player opens.
     */
    const soundFiles: Assets<BackgroundSound>
    const store: Store
    const music: MusicPlayer

    function Sound(): SessionSound
      reads this
    {
      SessionSound(backgroundPlayer, isBackgroundSoundPlaying)
    }

    /**
     * The remaining time lies within the session, whose length is that of
     * the current meditation, if there is one.
     */
    ghost predicate Valid()
      reads this, music
    {
      && timeRemaining <= totalDuration
      && (currentMeditation.Some? ==> currentMeditation.value.duration == totalDuration)
      && music.Valid()
    }

    /** Creation, with `setupBackgroundSounds`: the sounds with a file name whose file is bundled are found. */
    constructor (store: Store, music: MusicPlayer, bundledSounds: Assets<BackgroundSound>)
      requires music.Valid()
      ensures Valid()
      ensures this.store == store && this.music == music
      ensures soundFiles.found == set s | s in bundledSounds.found && SoundFileName(s).Some?
      ensures soundFiles.opening == bundledSounds.opening
      ensures !isPlaying && progress == 0.0 && timeRemaining == 0 && totalDuration == 0
      ensures selectedBackgroundSound == NoSound && Sound() == SoundStopped && !timerRunning
      ensures startTime == None && currentMeditation == None && !mainMusicWasPlayingBeforeMeditation
    {
      this.store := store;
      this.music := music;
      soundFiles := Assets((set s | s in bundledSounds.found && SoundFileName(s).Some?), bundledSounds.opening);
      isPlaying, progress, timeRemaining := false, 0.0, 0;
      selectedBackgroundSound, isBackgroundSoundPlaying, backgroundPlayer := NoSound, false, None;
      timerRunning, totalDuration, startTime := false, 0, None;
      mainMusicWasPlayingBeforeMeditation, currentMeditation := false, None;
    }

    method PlayBackgroundSound()
      modifies this`backgroundPlayer, this`isBackgroundSoundPlaying
      ensures Sound() == SoundPlayed(old(Sound()), selectedBackgroundSound, soundFiles)
    {
      if selectedBackgroundSound == NoSound || selectedBackgroundSound !in soundFiles.found {
        return;
      }
      StopBackgroundSound();
      if selectedBackgroundSound !in soundFiles.opening {
        return;
      }
      backgroundPlayer := Some(AudioPlayer(true, SessionSoundVolume));
      isBackgroundSoundPlaying := true;
    }

    method StopBackgroundSound()
      modifies this`backgroundPlayer, this`isBackgroundSoundPlaying
      ensures Sound() == SoundStopped
    {
      backgroundPlayer := None;
      isBackgroundSoundPlaying := false;
    }

    /**
     * `startMeditation`: the session takes the meditation's length and
     * starts playing now. When the meditation has its own sound and
     * ambient sounds are on, the background music is paused exactly when it
     * is playing and enabled, and the player records whether it did so.
     */
    method StartMeditation(m: MeditationOption, now: Instant)
      requires music.Valid()
      modifies this, music
      ensures Valid()
      ensures currentMeditation == Some(m) && totalDuration == m.duration && timeRemaining == m.duration
      ensures startTime == Some(now) && isPlaying && timerRunning
      ensures progress == old(progress)
      ensures var prefs := store.userPreferences;
        if m.backgroundSound != NoSound && prefs.enableBackgroundSounds then
          && mainMusicWasPlayingBeforeMeditation == (old(music.isPlaying) && prefs.enableBackgroundMusic)
          && music.State() == (if mainMusicWasPlayingBeforeMeditation then Stopped(old(music.State()))
                               else old(music.State()))
        else
          && mainMusicWasPlayingBeforeMeditation == old(mainMusicWasPlayingBeforeMeditation)
          && music.State() == old(music.State())
      ensures if store.userPreferences.enableBackgroundSounds then
                && selectedBackgroundSound == m.backgroundSound
                && Sound() == SoundPlayed(old(Sound()), m.backgroundSound, soundFiles)
              else selectedBackgroundSound == old(selectedBackgroundSound) && Sound() == old(Sound())
    {
      currentMeditation := Some(m);
      totalDuration := m.duration;
      timeRemaining := m.duration;
      startTime := Some(now);
      isPlaying := true;

      if m.backgroundSound != NoSound && store.userPreferences.enableBackgroundSounds {
        if music.isPlaying && store.userPreferences.enableBackgroundMusic {
          music.Pause();
          mainMusicWasPlayingBeforeMeditation := true;
        } else {
          mainMusicWasPlayingBeforeMeditation := false;
        }
      }

      if store.userPreferences.enableBackgroundSounds {
        selectedBackgroundSound := m.backgroundSound;
        PlayBackgroundSound();
      }

      timerRunning := true;
    }

    /** `togglePlayPause`: pause a playing session, resume a paused one. */
    method TogglePlayPause()
      requires Valid()
      modifies this`isPlaying, this`timerRunning, this`backgroundPlayer, this`isBackgroundSoundPlaying
      ensures Valid()
      ensures isPlaying == !old(isPlaying) && timerRunning == isPlaying
    {
      if isPlaying {
        PauseMeditation();
      } else {
        ResumeMeditation();
      }
    }

    /** `pauseMeditation`: the countdown stops and the ambient sound falls silent. */
    method PauseMeditation()
      requires Valid()
      modifies this`isPlaying, this`timerRunning, this`backgroundPlayer
      ensures Valid()
      ensures !isPlaying && !timerRunning
      ensures Sound() == SoundPaused(old(Sound()))
    {
      isPlaying := false;
      timerRunning := false;
      backgroundPlayer := Silenced(backgroundPlayer);
    }

    /** `resumeMeditation`: the countdown runs again and the ambient sound restarts if enabled. */
    method ResumeMeditation()
      requires Valid()
      modifies this`isPlaying, this`timerRunning, this`backgroundPlayer, this`isBackgroundSoundPlaying
      ensures Valid()
      ensures isPlaying && timerRunning
      ensures Sound() == if store.userPreferences.enableBackgroundSounds
                         then SoundPlayed(old(Sound()), selectedBackgroundSound, soundFiles)
                         else old(Sound())
    {
      isPlaying := true;
      if store.userPreferences.enableBackgroundSounds {
        PlayBackgroundSound();
      }
      timerRunning := true;
    }

    /**
     * What `endMeditation(completed:)` leaves behind: the player is idle
     * and silent; a completed session with a current meditation is logged
     * with the time actually spent (its length minus the time left), an
     * abandoned one is not logged; the music is resumed only if this
     * player paused it and music is still enabled, and the flag is cleared.
     */
    twostate predicate Ended(completed: bool, now: Instant, sessionId: Uuid)
      reads this, store, music
      requires old(Valid())
    {
      && !isPlaying && !timerRunning && currentMeditation == None && startTime == None
      && timeRemaining == 0 && progress == 0.0 && !mainMusicWasPlayingBeforeMeditation
      && Sound() == SoundStopped
      && totalDuration == old(totalDuration) && selectedBackgroundSound == old(selectedBackgroundSound)
      && store.userPreferences == old(store.userPreferences)
      && (if completed && old(currentMeditation).Some? && old(startTime).Some? then
            var m := old(currentMeditation).value;
            && store.meditationOptions ==
               CatalogAfterSession(old(store.meditationOptions), m.id, m.duration - old(timeRemaining), now)
            && store.userData ==
               UserDataAfterSession(old(store.userData), sessionId, m.id, m.duration - old(timeRemaining), now)
          else
            store.meditationOptions == old(store.meditationOptions) && store.userData == old(store.userData))
      && music.State() == (if old(mainMusicWasPlayingBeforeMeditation) && store.userPreferences.enableBackgroundMusic
                           then Resumed(old(music.State())) else old(music.State()))
    }

    /** `endMeditation(completed:)`. */
    method EndMeditation(completed: bool, now: Instant, sessionId: Uuid)
      requires Valid()
      modifies this, store, music
      ensures Valid()
      ensures Ended(completed, now, sessionId)
    {
      isPlaying := false;
      timerRunning := false;
      StopBackgroundSound();

      if completed && currentMeditation.Some? && startTime.Some? {
        var m := currentMeditation.value;
        var actualDuration := m.duration - timeRemaining;
        store.CompleteMeditationSession(m.id, actualDuration, now, sessionId);
      }

      ResetPlayer();

      if mainMusicWasPlayingBeforeMeditation && store.userPreferences.enableBackgroundMusic {
        music.Play();
      }
      mainMusicWasPlayingBeforeMeditation := false;
    }

    /** `skipForward`: at most `seconds` less time left, never below zero. */
    method SkipForward(seconds: nat)
      requires Valid() && totalDuration > 0
      modifies this`timeRemaining, this`progress
      ensures Valid()
      ensures timeRemaining == if old(timeRemaining) >= seconds then old(timeRemaining) - seconds else 0
      ensures timeRemaining <= old(timeRemaining)
      ensures progress == Progress(timeRemaining, totalDuration) && 0.0 <= progress <= 1.0
    {
      timeRemaining := if timeRemaining >= seconds then timeRemaining - seconds else 0;
      progress := Progress(timeRemaining, totalDuration);
    }

    /** `skipBackward`: at most `seconds` more time left, never above the session's length. */
    method SkipBackward(seconds: nat)
      requires Valid() && totalDuration > 0
      modifies this`timeRemaining, this`progress
      ensures Valid()
      ensures timeRemaining == if old(timeRemaining) + seconds <= totalDuration
                               then old(timeRemaining) + seconds else totalDuration
      ensures timeRemaining >= old(timeRemaining)
      ensures progress == Progress(timeRemaining, totalDuration) && 0.0 <= progress <= 1.0
    {
      timeRemaining := if timeRemaining + seconds <= totalDuration then timeRemaining + seconds else totalDuration;
      progress := Progress(timeRemaining, totalDuration);
    }

    /**
     * `updateTimer`, run once per timer firing: one second less and the
     * progress recomputed while time is left; at zero the session ends as
     * completed.
     */
    method UpdateTimer(now: Instant, sessionId: Uuid)
      requires Valid()
      modifies this, store, music
      ensures Valid()
      ensures old(timeRemaining) > 0 ==>
                && totalDuration == old(totalDuration) && timeRemaining == old(timeRemaining) - 1
                && progress == Progress(timeRemaining, totalDuration)
                && isPlaying == old(isPlaying) && timerRunning == old(timerRunning)
                && currentMeditation == old(currentMeditation) && startTime == old(startTime)
                && Sound() == old(Sound())
                && mainMusicWasPlayingBeforeMeditation == old(mainMusicWasPlayingBeforeMeditation)
                && unchanged(store) && unchanged(music)
      ensures old(timeRemaining) == 0 ==> Ended(true, now, sessionId)
    {
      if timeRemaining > 0 {
        timeRemaining := timeRemaining - 1;
        progress := Progress(timeRemaining, totalDuration);
      } else {
        EndMeditation(true, now, sessionId);
      }
    }

    /** `resetPlayer`: no session, no time, no progress, no sound. */
    method ResetPlayer()
      modifies this`timerRunning, this`backgroundPlayer, this`isBackgroundSoundPlaying,
               this`currentMeditation, this`startTime, this`timeRemaining, this`progress
      ensures !timerRunning && Sound() == SoundStopped
      ensures currentMeditation == None && startTime == None && timeRemaining == 0 && progress == 0.0
    {
      timerRunning := false;
      StopBackgroundSound();
      currentMeditation := None;
      startTime := None;
      timeRemaining := 0;
      progress := 0.0;
    }
  }

  /**
   * The one-second timer driving a session to its last second: after
   * starting a meditation of `d > 0` seconds, `d` ticks bring the time
   * left to zero and the progress to 1, with the session still current and
   * nothing logged yet.
   */
  method TickThroughSession(player: PlayerViewModel, m: MeditationOption, start: Instant, sessionId: Uuid)
    requires player.music.Valid() && m.duration > 0
    modifies player, player.store, player.music
    ensures player.Valid()
    ensures player.currentMeditation == Some(m) && player.startTime == Some(start)
    ensures player.totalDuration == m.duration && player.timeRemaining == 0 && player.progress == 1.0
    ensures player.store.userData.meditationHistory == old(player.store.userData.meditationHistory)
  {
    var d := m.duration;
    ghost var history := player.store.userData.meditationHistory;
    player.StartMeditation(m, start);
    var k := 0;
    while k < d
      invariant 0 <= k <= d
      invariant player.Valid()
      invariant player.currentMeditation == Some(m) && player.startTime == Some(start)
      invariant player.totalDuration == d && player.timeRemaining == d - k
      invariant k > 0 ==> player.progress == Progress(d - k, d)
      invariant player.store.userData.meditationHistory == history
    {
      player.UpdateTimer(start + k + 1, sessionId);
      k := k + 1;
    }
  }

  /**
   * A whole session: after the `d` ticks of `TickThroughSession`, tick
   * `d + 1` completes the session and logs exactly one record of `d`
   * seconds; a further tick logs nothing.
   */
  method PlayToCompletion(player: PlayerViewModel, m: MeditationOption, start: Instant, sessionId: Uuid)
    requires player.music.Valid() && m.duration > 0
    modifies player, player.store, player.music
    ensures player.Valid()
    ensures player.currentMeditation == None && !player.isPlaying && player.timeRemaining == 0
    ensures var h0, h := old(player.store.userData.meditationHistory), player.store.userData.meditationHistory;
            && |h| == |h0| + 1 && h[..|h0|] == h0
            && h[|h0|] == SessionRecord(sessionId, m.id, m.duration, start + m.duration + 1)
  {
    var d := m.duration;
    TickThroughSession(player, m, start, sessionId);
    player.UpdateTimer(start + d + 1, sessionId);
    ghost var logged := player.store.userData.meditationHistory;
    player.UpdateTimer(start + d + 2, sessionId);
    assert player.store.userData.meditationHistory == logged;
  }
}
