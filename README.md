# Mindful Moments — a verified model of the app's bookkeeping

Mindful Moments is a SwiftUI meditation app. It keeps a catalog of
meditations, plays one meditation at a time with a countdown, an
optional ambient sound and separate background music, guides a breathing
exercise, and keeps statistics: a history of completed sessions, a
streak of consecutive days and the total mindful time.

This Dafny project models the layer under the screens, module by module:

- `Models` (`models.dfy`): the enumerations and their mappings, the
  meditation entry and its initializer, the 27 seed meditations, and the
  defaults of the statistics and the preferences.
- `DataStore` (`data_store.dfy`): the store object. It holds the catalog
  (add, update by id, delete at offsets), session completion with the
  history record and the day-streak rule, the breathing and usage
  counters, the statistics reset, loading with fallbacks, and the
  preferences hook that drives the music player.
- `Music` (`music.dfy`): the background music player as a state machine
  over an abstract audio player.
- `Player` (`player.dfy`): the session player. It covers start, pause,
  resume, toggle, clamped skips, the one-second tick, and the end of a
  session with logging. It also tracks whether it paused the background
  music.
- `Breathing` (`breathing.dfy`): the breathing exercise. Each delayed
  phase callback is an event method.
- `TimerView` (`timer_view.dfy`): the stand-alone countdown screen and
  its "MM:SS" formatter.
- `PlayerView`, `AddMeditation`, `DetailView`: the session screen's
  formatter and button wiring, the add/edit form, and the detail screen's
  actions.

Objects the app changes in place are classes: the store, the music
player, the session player, the breathing view, the countdown view and
the two screens. Their methods are proved against pure functions of the
state before the call. For example, `Music.MusicPlayer.UpdatePlayback`
ends in `Music.PlaybackUpdated(old(State()), …)`, and the lemmas are
stated about those functions. Time is whole seconds (`Instant = int`),
durations are `nat` seconds, and a calendar day is a day number,
`DataStore.DayOf(t) = t / 86400`. Identifiers are `nat`; every fresh
identifier and every "now" is a parameter. Progress and volume are exact
reals.

Some behaviour of the app is kept as written and stated outright:

- Editing an entry rebuilds it through the initializer. This clears its
  completed-session count, its total time and its last use
  (`AddMeditation.UnchangedEditClearsStatistics`).
- The detail screen's delete removes position 0 when its entry is no
  longer in the catalog (`DetailView.DeleteTarget`).
- `updatePlayback` never switches to the selected track
  (`Music.PlaybackIgnoresSelectedTrack`).
- Loading saved preferences runs their assignment hook. With music
  enabled and no track yet, Peaceful Piano therefore starts at launch
  (`DataStore.Store.constructor`, `Music.PlaybackUpdatedCases`).
- The breathing exercise always logs 120 seconds when its last cycle
  ends, even if it was stopped and resumed along the way.

## Model

| member | source | states |
|---|---|---|
| Models.IconNamesDistinct | Models/MeditationModels.swift:13-21 | each category has a non-empty icon name, and two categories share an icon name exactly when they are the same category |
| Models.Lowercased | Models/MeditationModels.swift:34 | lower-casing keeps the length and maps each character on its own: Latin-1 capitals go to their lower-case partner, everything else is kept |
| Models.LowercasedIdempotent | Models/MeditationModels.swift:34 | lower-casing a lower-cased string changes nothing |
| Models.SoundFileNameSpec | Models/MeditationModels.swift:33-35 | a sound has no file name exactly when it is `.none`; otherwise the file name is its lower-cased raw value |
| Models.TrackFileNamesDistinct | Models/MeditationModels.swift:46-52 | every music track has its own file name, and every file name ends in ".mp3" |
| Models.FirstTrackIsPeacefulPiano | Models/MeditationModels.swift:39-44 | the track list in declaration order is complete and starts with Peaceful Piano, the fallback track |
| Models.NewOption | Models/MeditationModels.swift:76-94 | the initializer stores every argument it is given and starts both usage counters at zero |
| Models.NewOptionDefaults | Models/MeditationModels.swift:72-84 | an entry built without the optional arguments is not a favourite, has no sound, was never used, and has zero counters |
| Models.DefaultOptions | Models/MeditationModels.swift:97-239 | the seed catalog has one entry per seed, in order, with that seed's title, duration, description, category and sound, a fresh id, the creation instant, no favourite mark, no last use and zero counters |
| Models.SeedDurationsInWholeMinutes | Models/MeditationModels.swift:97-239 | there are 27 seeds, and each lasts between 180 and 900 seconds in whole minutes |
| Models.ResetToDefaultsSpec | Models/MeditationModels.swift:273-291 | resetting gives the same value whatever the input, so it is idempotent; the defaults include volume 0.5 (inside [0, 1]), 300 seconds, no ambient sound, Peaceful Piano, notifications, sounds and music on, and no breathing auto-start |
| Models.DefaultUserDataIsEmpty | Models/MeditationModels.swift:243-253 | fresh statistics have an empty history, no achievements and no counts, zero streak, longest streak and mindful time, a 600-second goal, no last date, and default preferences |
| DataStore.FirstIndex | ViewModels/MeditationDataStore.swift:109 | the search finds the first entry with the id, or reports none exactly when no entry has it |
| DataStore.Store.FindFirst | ViewModels/MeditationDataStore.swift:109 | the linear search returns `FirstIndex` of the catalog, a position holding the id |
| DataStore.FirstIndexSameIds | ViewModels/MeditationDataStore.swift:109 | catalogs with the same ids at the same positions have the same first match |
| DataStore.Replaced | ViewModels/MeditationDataStore.swift:108-113 | an update keeps the length, puts the new entry at the first matching position, leaves every other position as it was, and leaves the catalog unchanged when no id matches |
| DataStore.Store.UpdateMeditation | ViewModels/MeditationDataStore.swift:108-113 | the catalog becomes `Replaced(old catalog, m)`; statistics and preferences are unchanged |
| DataStore.Store.AddMeditation | ViewModels/MeditationDataStore.swift:101-106 | exactly one entry, stamped with the current instant, is appended, and all earlier entries are unchanged |
| DataStore.RemoveAt | ViewModels/MeditationDataStore.swift:115-118 | removing at offsets never lengthens the catalog and keeps only entries it had |
| DataStore.RemoveAtSpec | ViewModels/MeditationDataStore.swift:115-118 | removing at offsets keeps exactly the entries whose position is not an offset, in their original order, with one entry fewer per offset inside the list |
| DataStore.RemoveOne | ViewModels/MeditationDataStore.swift:115-118 | removing a single position in range splices out that one entry |
| DataStore.Store.DeleteMeditation | ViewModels/MeditationDataStore.swift:115-118 | the loop builds `RemoveAt(old catalog, offsets)`; statistics and preferences are unchanged |
| DataStore.CatalogAfterSession | ViewModels/MeditationDataStore.swift:122-127 | completing a session keeps the catalog's length and the id at every position |
| DataStore.CatalogAfterSessionSpec | ViewModels/MeditationDataStore.swift:122-127 | only the first entry with the id changes: one more session, `duration` more seconds, last used now; all other entries, including later duplicates, are untouched |
| DataStore.UserDataAfterSession | ViewModels/MeditationDataStore.swift:120-147 | the statistics after a completed session: the history grows by one record at its end and keeps every earlier one, and the last meditation day becomes today |
| DataStore.UserDataAfterSessionSpec | ViewModels/MeditationDataStore.swift:120-147 | completing a session appends exactly one completed record with the id and duration, starting `duration` seconds before now, even for an id not in the catalog; the streak follows the rule and the last day becomes today; achievements, longest streak, mindful time, goal and counts are unchanged |
| DataStore.Store.CompleteMeditationSession | ViewModels/MeditationDataStore.swift:120-147 | the catalog and statistics become `CatalogAfterSession` and `UserDataAfterSession` of the old ones; preferences are unchanged |
| DataStore.StreakTable | ViewModels/MeditationDataStore.swift:149-173 | the streak rule: no previous day gives 1, the same day keeps the streak, the previous day adds 1, and an older day resets to 1 |
| DataStore.StreakAfter | ViewModels/MeditationDataStore.swift:149-173 | the streak rule never adds more than one day, and a session on a day other than the last recorded one leaves a streak of at least 1 |
| DataStore.Store.UpdateStreak | ViewModels/MeditationDataStore.swift:149-173 | the streak follows `StreakAfter`, and the last meditation day becomes today; nothing else changes |
| DataStore.StreakCountsConsecutiveDays | ViewModels/MeditationDataStore.swift:149-173 | for sessions on days that never go backwards, the streak is at least 1 and counts consecutive days: every day of the run ending on the latest session day has a session, and the day before the run has none |
| DataStore.ConsecutiveDaysStreak | ViewModels/MeditationDataStore.swift:149-173 | sessions on k consecutive days from fresh statistics give a streak of k |
| DataStore.SameDayIdempotent | ViewModels/MeditationDataStore.swift:157-159 | a second session on the same day leaves the streak where the first one put it |
| DataStore.Store.LogBreathingSession | ViewModels/MeditationDataStore.swift:186-194 | only the total mindful time grows, by the duration |
| DataStore.Store.IncrementMeditationCount | ViewModels/MeditationDataStore.swift:197-202 | the entry's count grows by one (from 0 if absent), other counts are unchanged, and the mindful time grows by the entry's duration |
| DataStore.Store.ResetAllStatistics | ViewModels/MeditationDataStore.swift:205-212 | the statistics become the default; catalog and preferences are unchanged |
| DataStore.Store.constructor | ViewModels/MeditationDataStore.swift:47-80 | each of catalog, statistics and preferences is the saved value when present, and otherwise the seed catalog, fresh statistics or default preferences; loaded preferences go through the assignment hook, so the music player becomes `PlaybackUpdated` of its old state with them, and without saved preferences it is untouched |
| DataStore.Store.SetPreferences | ViewModels/MeditationDataStore.swift:10-39 | assigning preferences stores them and brings the music player to `PlaybackUpdated` of its old state |
| Music.ClampVolume | Utils/BackgroundMusicPlayer.swift:56-59 | the volume lands in [0, 1]; values in range are unchanged, values below go to 0 and values above go to 1 |
| Music.Stopped | Utils/BackgroundMusicPlayer.swift:71-81 | pause and stop leave the player silent and not playing, and keep the current track |
| Music.Resumed | Utils/BackgroundMusicPlayer.swift:61-69 | play changes the state only when a player exists and is silent, and then it sounds and is playing; otherwise nothing changes |
| Music.VolumeSet | Utils/BackgroundMusicPlayer.swift:56-59 | only the player's volume changes, to the clamped value |
| Music.TrackPlayed | Utils/BackgroundMusicPlayer.swift:22-54 | with music disabled the player stops; a missing file forgets the track and clears the flag; a found file that does not open forgets the track, clears the flag and leaves music that was playing stopped; otherwise it plays the track at the preferred volume; the published flag is never true without a sounding player |
| Music.PlaybackUpdatedCases | Utils/BackgroundMusicPlayer.swift:83-97 | update playback: disabled stops; a silent current track is replayed; a playing one only has its volume set; with no track, Peaceful Piano is played |
| Music.PlaybackIgnoresSelectedTrack | Utils/BackgroundMusicPlayer.swift:83-97 | the selected track in the preferences never affects the result; the track afterwards is the old one, Peaceful Piano or none |
| Music.PlaybackUpdated | Utils/BackgroundMusicPlayer.swift:83-97 | updating keeps the playing flag honest; with music disabled nothing plays and the track is kept; with music enabled a playing track keeps playing |
| Music.MusicPlayer.PlayTrack | Utils/BackgroundMusicPlayer.swift:22-54 | the new state is `TrackPlayed` of the old one |
| Music.MusicPlayer.SetVolume | Utils/BackgroundMusicPlayer.swift:56-59 | the new state is `VolumeSet` of the old one |
| Music.MusicPlayer.Play | Utils/BackgroundMusicPlayer.swift:61-69 | the new state is `Resumed` of the old one |
| Music.MusicPlayer.Pause | Utils/BackgroundMusicPlayer.swift:71-75 | the new state is `Stopped` of the old one |
| Music.MusicPlayer.Stop | Utils/BackgroundMusicPlayer.swift:77-81 | the new state is `Stopped` of the old one |
| Music.MusicPlayer.UpdatePlayback | Utils/BackgroundMusicPlayer.swift:83-97 | the new state is `PlaybackUpdated` of the old one, and the playing flag stays honest |
| Player.Progress | ViewModels/MeditationPlayerViewModel.swift:195 | progress is 1 − remaining/total: inside [0, 1], 0 at the start, and 1 exactly when no time is left |
| Player.ProgressAfterTicks | ViewModels/MeditationPlayerViewModel.swift:192-200 | after k ticks of a d-second session the progress is k/d |
| Player.SoundPlayed | ViewModels/MeditationPlayerViewModel.swift:202-223 | for `.none` or a sound without a bundled file nothing happens; a found file that does not open leaves the old sound stopped and released; otherwise a new looping player sounds at volume 0.3 and the flag is set |
| Player.PlayerViewModel.constructor | ViewModels/MeditationPlayerViewModel.swift:29-54 | the player starts idle; the found sounds are those with a file name whose file is bundled |
| Player.PlayerViewModel.StartMeditation | ViewModels/MeditationPlayerViewModel.swift:74-116 | total and remaining time become the meditation's duration, and it is current, started now and playing. When it has a sound and ambient sounds are on, the music is paused, and the flag set, exactly when music is playing and enabled. With ambient sounds on, its sound is selected and played |
| Player.PlayerViewModel.TogglePlayPause | ViewModels/MeditationPlayerViewModel.swift:118-124 | the playing flag flips, and the timer runs exactly when playing |
| Player.PlayerViewModel.PauseMeditation | ViewModels/MeditationPlayerViewModel.swift:126-131 | not playing, timer stopped, ambient sound silenced; the remaining time is unchanged |
| Player.PlayerViewModel.ResumeMeditation | ViewModels/MeditationPlayerViewModel.swift:133-144 | playing, timer running, and the ambient sound replayed when ambient sounds are on |
| Player.PlayerViewModel.EndMeditation | ViewModels/MeditationPlayerViewModel.swift:146-169 | the player is idle and silent with no current meditation, no start time, no time left and no progress. A completed session with a current meditation logs exactly one session of its duration minus the time left; an abandoned one logs nothing. Music resumes only if this player paused it and music is enabled, and the flag is always cleared |
| Player.PlayerViewModel.SkipForward | ViewModels/MeditationPlayerViewModel.swift:171-175 | the time left shrinks by the step but not below 0, stays within the session, and the progress is recomputed; the playing flag is untouched |
| Player.PlayerViewModel.SkipBackward | ViewModels/MeditationPlayerViewModel.swift:177-181 | the time left grows by the step but not beyond the session, and the progress is recomputed; the playing flag is untouched |
| Player.PlayerViewModel.UpdateTimer | ViewModels/MeditationPlayerViewModel.swift:192-200 | with time left, one second less and progress 1 − remaining/total, with nothing else changed; at zero the session ends as completed |
| Player.PlayerViewModel.ResetPlayer | ViewModels/MeditationPlayerViewModel.swift:231-239 | no timer, no sound, no current meditation, no start time, no time left, no progress |
| Player.PlayerViewModel.PlayBackgroundSound | ViewModels/MeditationPlayerViewModel.swift:202-223 | the ambient sound becomes `SoundPlayed` of the old one for the selected sound |
| Player.PlayerViewModel.StopBackgroundSound | ViewModels/MeditationPlayerViewModel.swift:225-229 | the ambient player is gone and the flag is cleared |
| Player.TickThroughSession | ViewModels/MeditationPlayerViewModel.swift:192-200 | after starting a d-second meditation, d ticks bring the time left to 0 and the progress to 1 with the session still current and nothing logged |
| Player.PlayToCompletion | ViewModels/MeditationPlayerViewModel.swift:192-200 | after those d ticks, tick d+1 ends the session idle and logs exactly one completed session of d seconds; a further tick logs nothing |
| Breathing.CycleDuration | Views/BreathingExerciseView.swift:14-21 | a cycle lasts 4 + 1 + 6 + 1 = 12 seconds |
| Breathing.CycleBegun | Views/BreathingExerciseView.swift:116-129 | a running exercise with cycles left inhales at scale 1.5; with none left it shows "Abgeschlossen!" and stops animating |
| Breathing.ExerciseStarted | Views/BreathingExerciseView.swift:97-104 | starting does nothing while animating; otherwise a finished count restarts at 10 and a cycle begins |
| Breathing.ExerciseStopped | Views/BreathingExerciseView.swift:106-114 | stopping clears animating and sets scale 1 and "Einatmen"; the count is kept |
| Breathing.Held | Views/BreathingExerciseView.swift:131-152 | the hold callbacks show "Halten" while animating and otherwise do nothing |
| Breathing.Exhaling | Views/BreathingExerciseView.swift:138-145 | the exhale callback shows "Ausatmen" at scale 0.75 while animating and otherwise does nothing |
| Breathing.CycleEnded | Views/BreathingExerciseView.swift:154-169 | while animating, a cycle's end removes one cycle; the next cycle begins, or after the last the exercise ends at rest with "Sehr gut! Übung beendet."; not animating, nothing changes |
| Breathing.LoggedAtCycleEnd | Views/BreathingExerciseView.swift:160-168 | a cycle's end logs time exactly when it ends the last cycle, and then it logs 120 seconds |
| Breathing.EventsKeepSane | Views/BreathingExerciseView.swift:97-170 | every event keeps the count within 0..10 and never animates with no cycles left |
| Breathing.CyclePhases | Views/BreathingExerciseView.swift:125-158 | a cycle runs Einatmen (1.5), Halten (1.5), Ausatmen (0.75), Halten (0.75), and its end takes one cycle off |
| Breathing.CyclesToCompletion | Views/BreathingExerciseView.swift:154-169 | a running exercise with n cycles left logs nothing in its first cycles and, after exactly n cycles, is completed having logged 120 seconds once |
| Breathing.FreshExerciseLogsTwoMinutes | Views/BreathingExerciseView.swift:97-169 | started from the initial state, ten cycles complete the exercise and log 120 seconds |
| Breathing.ButtonTitleTracksTaps | Views/BreathingExerciseView.swift:67-74 | the button reads "Pause" exactly while a tap stops the exercise; after starting it reads "Pause", after stopping it never does and reads "Start" unless no cycle is left |
| Breathing.ButtonTitleOverExercise | Views/BreathingExerciseView.swift:67-74 | a fresh exercise shows "Start"; after its ten cycles it shows "Neustart", and a tap then starts ten new cycles |
| Breathing.BreathingExercise.StartExercise | Views/BreathingExerciseView.swift:97-104 | the new state is `ExerciseStarted` of the old one |
| Breathing.BreathingExercise.StopExercise | Views/BreathingExerciseView.swift:106-114 | the new state is `ExerciseStopped` of the old one |
| Breathing.BreathingExercise.AnimateBreathCycle | Views/BreathingExerciseView.swift:116-129 | the new state is `CycleBegun` of the old one |
| Breathing.BreathingExercise.OnHoldAfterInhale | Views/BreathingExerciseView.swift:132-136 | the new state is `Held` of the old one |
| Breathing.BreathingExercise.OnExhale | Views/BreathingExerciseView.swift:139-145 | the new state is `Exhaling` of the old one |
| Breathing.BreathingExercise.OnHoldAfterExhale | Views/BreathingExerciseView.swift:148-152 | the new state is `Held` of the old one |
| Breathing.BreathingExercise.OnCycleEnd | Views/BreathingExerciseView.swift:155-169 | the new state is `CycleEnded` of the old one, and the mindful time grows by `LoggedAtCycleEnd` |
| Breathing.BreathingExercise.OnAppear | Views/BreathingExerciseView.swift:87-91 | the exercise starts by itself exactly when auto-start is enabled |
| Breathing.BreathingExercise.ButtonTapped | Views/BreathingExerciseView.swift:67-73 | the button stops a running exercise and starts a stopped one |
| Breathing.RunToCompletion | Views/BreathingExerciseView.swift:97-169 | an exercise run to the end finishes completed and adds exactly 120 seconds of mindful time |
| TimerView.TimeString | MeditationTimerView.swift:133-137 | five characters "MM:SS": two digits for (t/60) mod 60, a colon, and two digits for t mod 60 |
| TimerView.Pad2 | MeditationTimerView.swift:136 | `%02i` of a number below 100 is two digits that read back as the number |
| TimerView.TimeStringAlike | MeditationTimerView.swift:133-137 | two times print alike exactly when they agree modulo 3600 seconds |
| TimerView.RemainingShare | MeditationTimerView.swift:115 | the ring shows remaining/duration, or 0 for an empty meditation; it lies in [0, 1], is 1 exactly at the start, and is 0 exactly when nothing is left |
| TimerView.RemainingShareComplementsProgress | MeditationTimerView.swift:115 | this screen's ring and the session player's progress add up to 1 |
| TimerView.Countdown.constructor | MeditationTimerView.swift:19-29 | the screen opens inactive with the whole duration left and a full ring |
| TimerView.Countdown.Tick | MeditationTimerView.swift:110-122 | inactive: nothing changes. Active with time left: one second less and the ring recomputed. Active at zero: the timer stops, and the completion sound is due exactly then |
| TimerView.Countdown.StartTimer | MeditationTimerView.swift:139-142 | only the active flag changes, to on |
| TimerView.Countdown.PauseTimer | MeditationTimerView.swift:144-146 | only the active flag changes, to off |
| TimerView.Countdown.StopTimer | MeditationTimerView.swift:148-151 | only the active flag changes, to off |
| TimerView.Countdown.ResetTimer | MeditationTimerView.swift:153-157 | inactive, the whole duration left, and a full ring, or an empty one for an empty meditation |
| TimerView.RunCountdown | MeditationTimerView.swift:110-122 | a started countdown left alone reaches zero, empties the ring of a non-empty meditation, and then stops |
| PlayerView.FormattedTimerDuration | Views/MeditationPlayerView.swift:152-157 | the session screen's formatter prints exactly what the countdown screen's `timeString` prints |
| PlayerView.FormattedDropsWholeHours | Views/MeditationPlayerView.swift:154-156 | adding a whole hour does not change the display |
| PlayerView.FormattedExamples | Views/MeditationPlayerView.swift:154-156 | 3600 seconds show as "00:00" and 3661 seconds as "01:01" |
| PlayerView.PlayerScreen.OnAppear | Views/MeditationPlayerView.swift:124-128 | the screen starts its meditation exactly when the player's current id differs from it, and otherwise leaves the player alone |
| PlayerView.PlayerScreen.CloseTapped | Views/MeditationPlayerView.swift:20-22 | closing ends the session as abandoned, and nothing is logged |
| PlayerView.PlayerScreen.EndTapped | Views/MeditationPlayerView.swift:109-110 | the end button ends the session as completed |
| PlayerView.PlayerScreen.SkipBackwardTapped | Views/MeditationPlayerView.swift:80-81 | skip back is 15 seconds, clamped to the session |
| PlayerView.PlayerScreen.SkipForwardTapped | Views/MeditationPlayerView.swift:98-99 | skip forward is 30 seconds, clamped at 0 |
| PlayerView.PlayerScreen.PlayPauseTapped | Views/MeditationPlayerView.swift:88-89 | the play/pause button flips playing |
| PlayerView.PlayerScreen.SoundButtonTapped | Views/MeditationPlayerView.swift:58-68 | the ambient-sound button stops a sounding ambient sound and otherwise plays the selected one |
| AddMeditation.InitialForm | Views/AddMeditationView.swift:15-22 | the form starts with the edited entry's values, or with an empty title and description, 300 seconds, the custom category and no sound |
| AddMeditation.SaveEnabledInitially | Views/AddMeditationView.swift:72 | a new form cannot be saved until it has a title; an edit form can be saved exactly when the entry has one |
| AddMeditation.SliderValue | Views/AddMeditationView.swift:51 | every slider stop lies in 60..3600 and is a whole number of minutes |
| AddMeditation.SliderPosition | Views/AddMeditationView.swift:51 | every duration on the slider is the value of a stop |
| AddMeditation.SliderRoundTrip | Views/AddMeditationView.swift:51 | stops and durations correspond one to one |
| AddMeditation.DefaultsOnSlider | Views/AddMeditationView.swift:19 | the 300-second default and every seed duration lie on a slider stop |
| AddMeditation.BuiltRecord | Views/AddMeditationView.swift:105-115 | the saved record carries the form's fields. An edit keeps id, favourite mark and creation date; a new entry gets the fresh id, no favourite mark and now. Either way the counters restart at zero with no last use |
| AddMeditation.UnchangedEditClearsStatistics | Views/AddMeditationView.swift:105-121 | saving an unchanged edit form leaves the entry in place and clears only its statistics |
| AddMeditation.SavingKeepsTitles | Views/AddMeditationView.swift:72-123 | with the save buttons enabled only for a title, the saved record has a title, and a catalog of titled entries stays titled whether the record replaces an entry or is appended |
| AddMeditation.SaveMeditation | Views/AddMeditationView.swift:72-123 | reachable only with a title; an edit replaces the entry with its id and never adds one (same length); a new entry is appended (one longer); statistics and preferences are unchanged; a titled catalog stays titled |
| DetailView.Refreshed | Views/MeditationDetailView.swift:104-109 | the screen's copy becomes the first catalog entry with its id, or stays as it was when there is none |
| DetailView.FavoriteToggled | Views/MeditationDetailView.swift:141-145 | the favourite action changes only the favourite mark, flipping it |
| DetailView.FavoriteTwiceRestores | Views/MeditationDetailView.swift:141-145 | with a catalog refresh in between, toggling the favourite twice restores the catalog; the first toggle flips exactly the entry's mark |
| DetailView.DeleteTarget | Views/MeditationDetailView.swift:170-173 | the delete position is that of the first entry with the id, or 0 when none has it |
| DetailView.DetailScreen.OnCatalogChanged | Views/MeditationDetailView.swift:104-109 | the screen's copy becomes `Refreshed` of the catalog |
| DetailView.DetailScreen.ToggleFavorite | Views/MeditationDetailView.swift:141-145 | the catalog becomes `Replaced(old, copy with the mark flipped)` |
| DetailView.DetailScreen.DeleteMeditation | Views/MeditationDetailView.swift:170-173 | exactly one entry is spliced out, at `DeleteTarget`, and the catalog is one shorter |
| DetailView.PlayingIndicatorByIdentifier | Views/MeditationDetailView.swift:13-15 | `isCurrentMeditationPlaying` compares identifiers only: refreshing the screen's copy from the catalog does not change it, the entry the player holds and plays shows it, and a paused player never does |
| DetailView.DetailScreen.PlayTapped | Views/MeditationDetailView.swift:117-126 | after the play button this entry is current, started now with its whole duration left, and playing (`isCurrentMeditationPlaying` holds) |

## Left out

- Persistence: the JSON encoding, `UserDefaults` and the save calls are not modelled. Loading is reduced to an optional saved value with a fallback (`DataStore.Store.constructor`).
- Notifications: reminder scheduling, the permission request and its callback, the reminder-time formatting and the notification delegate are asynchronous platform calls and are not modelled. The reminder time is only an hour and minute.
- Audio devices: the audio session, the lock-screen controls and the now-playing information are not modelled. An audio player is reduced to "sounding or not" and its volume.
- Asset oracles: whether a music track's or ambient sound's file is in the bundle, and whether the audio player opens it, are two sets given at construction (`Music.Assets`). Why a file does not open is not modelled.
- DataStore.Store.DeleteMeditation: requires every offset to lie inside the catalog. The app hands offsets beyond the list to `remove(atOffsets:)`, which fails at run time; that failure is not modelled.
- DetailView.DetailScreen.DeleteMeditation: requires a non-empty catalog. With an empty catalog the app removes position 0, which fails at run time; that failure is not modelled.
- Player.PlayerViewModel.SkipForward, Player.PlayerViewModel.SkipBackward: these require a session longer than zero seconds. With zero seconds the app computes 0/0 as floating point, which gives NaN.
- Player.PlayerViewModel.StartMeditation: the app defers its body to the main queue. Here it runs at once.
- Floating point: times are whole seconds and progress and volume are exact reals. Float rounding and the Float volume type are not modelled.
- Calendar: days are UTC day numbers (`t / 86400`). Time zones and daylight saving time are not modelled.
- Achievements: the achievement check is an empty placeholder that only saves, and `longestStreak` is never updated. Neither is given any behaviour.
- Models.LowerChar: lower-casing covers the Latin-1 letters. That is enough for every raw value in the app; full Unicode case mapping is not modelled.
- DataStore.Store.constructor: loading runs only the music part of the preferences hook; its save and notification parts are left out with persistence and notifications.
- Breathing: the wall-clock delays of the phase callbacks are not modelled. Any arrival order of the events is allowed, and each event is guarded only by the animating flag, as in the app. The springs and easing of the animation are not modelled.
- Timer firing: the once-per-second publishers are not modelled; each firing is an explicit call of `UpdateTimer` or `Tick`. The completion sound of the countdown screen is reported, not played.
- Screens: layout, navigation, dismissal, sheets, alerts, the statistics and settings screens, and the decorative background are presentation only and are not modelled.
- Locale formatting: the duration and relative-date formatters of the detail screen are locale-dependent library calls and are not modelled.
