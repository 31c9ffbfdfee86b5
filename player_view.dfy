/**
 * The session screen: its "MM:SS" formatter for the time left and the
 * wiring of its buttons to the session player. The layout and the
 * dismissal of the screen are left out.
 */
module PlayerView {
  import opened Optional
  import opened Models
  import opened Player
  import TimerView

  /** `formattedTimerDuration`: minutes within the hour and seconds within the minute, as "MM:SS". */
  function FormattedTimerDuration(t: nat): (r: string)
    ensures r == TimerView.TimeString(t)
    ensures |r| == 5 && r[2] == ':'
  {
    TimerView.Pad2(t / 60 % 60) + ":" + TimerView.Pad2(t % 60)
  }

  /** Whole hours are dropped from the display. */
  lemma FormattedDropsWholeHours(t: nat)
    ensures FormattedTimerDuration(t + 3600) == FormattedTimerDuration(t)
  {
    assert (t + 3600) / 60 == t / 60 + 60;
    assert (t + 3600) % 60 == t % 60;
    assert (t / 60 + 60) % 60 == t / 60 % 60;
  }

  /** An hour shows as "00:00"; an hour, a minute and a second as "01:01". */
  lemma FormattedExamples()
    ensures FormattedTimerDuration(3600) == "00:00"
    ensures FormattedTimerDuration(3661) == "01:01"
  {
    assert TimerView.Pad2(0) == "00" by {
      assert TimerView.Digit(0) == '0';
    }
    assert TimerView.Pad2(1) == "01" by {
      assert TimerView.Digit(0) == '0' && TimerView.Digit(1) == '1';
    }
    assert 3600 / 60 % 60 == 0 && 3600 % 60 == 0;
    assert 3661 / 60 % 60 == 1 && 3661 % 60 == 1;
  }

  /** The skip-back button's step. */
  const SkipBackSeconds: nat := 15
  /** The skip-forward button's step. */
  const SkipForwardSeconds: nat := 30

  /** The ambient-sound button is shown only for a meditation with a sound while ambient sounds are on. */
  predicate SoundButtonShown(m: MeditationOption, prefs: UserPreferences) {
    m.backgroundSound != NoSound && prefs.enableBackgroundSounds
  }

  class PlayerScreen {
    const meditation: MeditationOption
    const player: PlayerViewModel

    constructor (meditation: MeditationOption, player: PlayerViewModel)
      ensures this.meditation == meditation && this.player == player
    {
      this.meditation := meditation;
      this.player := player;
    }

    /**
     * `onAppear`: the screen starts its meditation unless the player is
     * already on a meditation with the same id, which is left as it is.
     */
    method OnAppear(now: Instant)
      requires player.Valid()
      modifies player, player.music
      ensures player.Valid()
      ensures var cur := old(player.currentMeditation);
        if cur.None? || cur.value.id != meditation.id then
          && player.currentMeditation == Some(meditation) && player.isPlaying
          && player.timeRemaining == meditation.duration && player.startTime == Some(now)
        else unchanged(player) && unchanged(player.music)
    {
      if player.currentMeditation.None? || player.currentMeditation.value.id != meditation.id {
        player.StartMeditation(meditation, now);
      }
    }

    /** The close button abandons the session: it is not logged. */
    method CloseTapped(now: Instant, sessionId: Uuid)
      requires player.Valid()
      modifies player, player.store, player.music
      ensures player.Valid()
      ensures player.Ended(false, now, sessionId)
      ensures player.store.userData == old(player.store.userData)
    {
      player.EndMeditation(false, now, sessionId);
    }

    /** The end button finishes the session early as completed: the time spent so far is logged. */
    method EndTapped(now: Instant, sessionId: Uuid)
      requires player.Valid()
      modifies player, player.store, player.music
      ensures player.Valid()
      ensures player.Ended(true, now, sessionId)
    {
      player.EndMeditation(true, now, sessionId);
    }

    /** Fifteen seconds back, never beyond the start of the session. */
    method SkipBackwardTapped()
      requires player.Valid() && player.totalDuration > 0
      modifies player`timeRemaining, player`progress
      ensures player.Valid()
      ensures player.timeRemaining == if old(player.timeRemaining) + 15 <= player.totalDuration
                                      then old(player.timeRemaining) + 15 else player.totalDuration
    {
      player.SkipBackward(SkipBackSeconds);
    }

    /** Thirty seconds forward, never beyond the end of the session. */
    method SkipForwardTapped()
      requires player.Valid() && player.totalDuration > 0
      modifies player`timeRemaining, player`progress
      ensures player.Valid()
      ensures player.timeRemaining == if old(player.timeRemaining) >= 30 then old(player.timeRemaining) - 30 else 0
    {
      player.SkipForward(SkipForwardSeconds);
    }

    method PlayPauseTapped()
      requires player.Valid()
      modifies player`isPlaying, player`timerRunning, player`backgroundPlayer, player`isBackgroundSoundPlaying
      ensures player.Valid()
      ensures player.isPlaying == !old(player.isPlaying)
    {
      player.TogglePlayPause();
    }

    /** The ambient-sound button: silence a sounding ambient sound, otherwise (re)start it. */
    method SoundButtonTapped()
      requires SoundButtonShown(meditation, player.store.userPreferences)
      modifies player`backgroundPlayer, player`isBackgroundSoundPlaying
      ensures player.Sound() == if old(player.isBackgroundSoundPlaying) then SoundStopped
                                else SoundPlayed(old(player.Sound()), player.selectedBackgroundSound, player.soundFiles)
    {
      if player.isBackgroundSoundPlaying {
        player.StopBackgroundSound();
      } else {
        player.PlayBackgroundSound();
      }
    }
  }
}
