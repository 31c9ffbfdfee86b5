/**
 * The app's value types: the three enums with their file-name and icon
 * mappings, a catalog entry with its initializer and the seed catalog,
 * the user statistics record, session and achievement records, and the
 * user preferences with their defaults.
 *
 * Modelling choices: identifiers are natural numbers (a fresh `UUID()` is
 * always passed in by the caller), instants are whole seconds, durations
 * are whole seconds (`nat`), and the music volume is an exact real.
 */
module Models {
  import opened Optional

  type Uuid = nat

  /** A wall-clock instant, in whole seconds since the epoch. */
  type Instant = int

  // ---------------------------------------------------------------------
  // Categories

  datatype MeditationCategory = Focus | Sleep | Anxiety | Morning | CustomS

  const AllCategories: seq<MeditationCategory> := [Focus, Sleep, Anxiety, Morning, CustomS]

  /** The SF-symbol name shown for a category. */
  function IconName(c: MeditationCategory): string {
    match c
    case Focus => "brain.head.profile"
    case Sleep => "moon.zzz.fill"
    case Anxiety => "heart.circle"
    case Morning => "sunrise.fill"
    case CustomS => "plus.circle"
  }

  /** Every category has an icon of its own: `IconName` is injective. */
  lemma IconNamesDistinct(a: MeditationCategory, b: MeditationCategory)
    ensures IconName(a) == IconName(b) <==> a == b
    ensures IconName(a) != ""
  {
    if a != b {
      // the names already differ in length or at one of their first characters
      match a
      case Focus => assert IconName(a)[0] == 'b';
      case Sleep => assert IconName(a)[0] == 'm';
      case Anxiety => assert IconName(a)[0] == 'h';
      case Morning => assert IconName(a)[..3] == "sun";
      case CustomS => assert IconName(a)[0] == 'p';
    }
  }

  // ---------------------------------------------------------------------
  // Ambient sounds of a session

  /** `.none` of the app is called `NoSound` here. */
  datatype BackgroundSound = NoSound | Rain | Waves | Forest | WhiteNoise

  const AllSounds: seq<BackgroundSound> := [NoSound, Rain, Waves, Forest, WhiteNoise]

  function SoundRawValue(s: BackgroundSound): string {
    match s
    case NoSound => "Keins"
    case Rain => "Regen"
    case Waves => "Meeresrauschen"
    case Forest => "Wald"
    case WhiteNoise => "Weißes Rauschen"
  }

  /**
   * Lower-case mapping of one character: the Latin-1 upper-case letters
   * A-Z and À-Þ (except the multiplication sign) map to their lower-case
   * partner 32 code points higher; every other character is kept.
   */
  function LowerChar(c: char): (r: char)
    ensures ('A' <= c <= 'Z') ==> 'a' <= r <= 'z' && r as int == c as int + 32
    ensures !('A' <= c <= 'Z') && !('À' <= c <= 'Þ' && c != '×') ==> r == c
    ensures !('A' <= r <= 'Z') && !('À' <= r <= 'Þ' && r != '×')
  {
    if 'A' <= c <= 'Z' || ('À' <= c <= 'Þ' && c != '×') then (c as int + 32) as char else c
  }

  /** `String.lowercased()`, character by character. */
  function Lowercased(s: string): (r: string)
    ensures |r| == |s|
    ensures forall i :: 0 <= i < |s| ==> r[i] == LowerChar(s[i])
  {
    if s == [] then [] else [LowerChar(s[0])] + Lowercased(s[1..])
  }

  /** Lower-casing twice is lower-casing once. */
  lemma LowercasedIdempotent(s: string)
    ensures Lowercased(Lowercased(s)) == Lowercased(s)
  {
  }

  /** The bundled audio file name of a sound; there is none for `.none`. */
  function SoundFileName(s: BackgroundSound): Option<string> {
    if s == NoSound then None else Some(Lowercased(SoundRawValue(s)))
  }

  /** The file name is missing exactly for `.none` and is otherwise the lower-cased raw value. */
  lemma SoundFileNameSpec(s: BackgroundSound)
    ensures SoundFileName(s).None? <==> s == NoSound
    ensures s != NoSound ==> SoundFileName(s) == Some(Lowercased(SoundRawValue(s)))
  {
  }

  // ---------------------------------------------------------------------
  // Background music tracks

  datatype BackgroundMusicTrack = PeacefulPiano | AmbientGuitar | SingingBowl

  /** The declaration order of the cases (`allCases`). */
  const AllTracks: seq<BackgroundMusicTrack> := [PeacefulPiano, AmbientGuitar, SingingBowl]

  function TrackFileName(t: BackgroundMusicTrack): string {
    match t
    case PeacefulPiano => "peaceful_piano.mp3"
    case AmbientGuitar => "ambient_guitar.mp3"
    case SingingBowl => "singing_bowl.mp3"
  }

  predicate EndsWith(s: string, suffix: string) {
    |suffix| <= |s| && s[|s| - |suffix|..] == suffix
  }

  /** Each track has a file of its own, and every file is an ".mp3". */
  lemma TrackFileNamesDistinct(a: BackgroundMusicTrack, b: BackgroundMusicTrack)
    ensures TrackFileName(a) == TrackFileName(b) <==> a == b
    ensures EndsWith(TrackFileName(a), ".mp3")
  {
    if a != b {
      match a
      case PeacefulPiano => assert TrackFileName(a)[0] == 'p';
      case AmbientGuitar => assert TrackFileName(a)[0] == 'a';
      case SingingBowl => assert TrackFileName(a)[0] == 's';
    }
  }

  /** The first track in declaration order, the one `updatePlayback` falls back to. */
  lemma FirstTrackIsPeacefulPiano()
    ensures |AllTracks| > 0 && AllTracks[0] == PeacefulPiano
    ensures forall t :: t in AllTracks
  {
    forall t: BackgroundMusicTrack ensures t in AllTracks {
      match t
      case PeacefulPiano => assert AllTracks[0] == t;
      case AmbientGuitar => assert AllTracks[1] == t;
      case SingingBowl => assert AllTracks[2] == t;
    }
  }

  // ---------------------------------------------------------------------
  // Catalog entries

  datatype MeditationOption = MeditationOption(
    id: Uuid,
    title: string,
    duration: nat,
    description: string,
    category: MeditationCategory,
    backgroundSound: BackgroundSound,
    isFavorite: bool,
    creationDate: Instant,
    lastUsed: Option<Instant>,
    completedSessions: nat,
    totalMeditationTime: nat)

  /**
   * The entry initializer. Sound, favourite flag and last use have the
   * initializer's defaults; the usage counters always start at zero.
   */
  function NewOption(id: Uuid, title: string, duration: nat, description: string,
                     category: MeditationCategory, creationDate: Instant,
                     backgroundSound: BackgroundSound := NoSound,
                     isFavorite: bool := false,
                     lastUsed: Option<Instant> := None): (r: MeditationOption)
    ensures r.completedSessions == 0 && r.totalMeditationTime == 0
    ensures r.id == id && r.title == title && r.duration == duration && r.description == description
    ensures r.category == category && r.creationDate == creationDate
    ensures r.backgroundSound == backgroundSound && r.isFavorite == isFavorite && r.lastUsed == lastUsed
  {
    MeditationOption(id, title, duration, description, category, backgroundSound,
                     isFavorite, creationDate, lastUsed, 0, 0)
  }

  /** Without the optional arguments an entry is not a favourite, has no sound and was never used. */
  lemma NewOptionDefaults(id: Uuid, title: string, duration: nat, description: string,
                          category: MeditationCategory, creationDate: Instant)
    ensures var r := NewOption(id, title, duration, description, category, creationDate);
            && r.completedSessions == 0 && r.totalMeditationTime == 0 && r.lastUsed == None
            && !r.isFavorite && r.backgroundSound == NoSound
  {
  }

  /** One row of the seed catalog: what the seed entry passes to the initializer. */
  datatype Seed = Seed(title: string, duration: nat, description: string,
                       category: MeditationCategory, sound: BackgroundSound)

  const Seeds: seq<Seed> := [
    Seed("Morgenfrische", 300, "Starte klar und energiegeladen in den Tag.", Morning, Forest),
    Seed("Stressabbau Express", 180, "Finde schnelle Entspannung in stressigen Momenten.", Anxiety, Rain),
    Seed("Tiefer Schlaf", 900, "Gleite sanft in eine erholsame Nachtruhe.", Sleep, Waves),
    Seed("Fokus & Konzentration", 600, "Schärfe deinen Geist für anstehende Aufgaben.", Focus, NoSound),
    Seed("Dankbarkeitsmoment", 240, "Kultiviere Dankbarkeit für mehr Lebensfreude.", CustomS, Forest),
    Seed("Innere Ruhe finden", 480, "Eine kurze Auszeit, um zur inneren Mitte zu gelangen.", Anxiety, Rain),
    Seed("Kreativitätsboost", 720, "Öffne deinen Geist für neue Ideen und Inspiration.", CustomS, Waves),
    Seed("Loslassen lernen", 540, "Befreie dich von belastenden Gedanken und Gefühlen.", CustomS, NoSound),
    Seed("Energie tanken", 360, "Lade deine Batterien mit positiver Energie wieder auf.", Focus, Forest),
    Seed("Abendentspannung", 600, "Lass den Tag sanft ausklingen und bereite dich auf die Nacht vor.", Sleep, Rain),
    Seed("Morgendliche Ruhe", 300, "Starte entspannt in den Tag", Morning, NoSound),
    Seed("Tiefenentspannung", 600, "Lass den Stress des Tages hinter dir", Sleep, Rain),
    Seed("Fokus verbessern", 480, "Steigere deine Konzentrationsfähigkeit", Focus, NoSound),
    Seed("Sonnenaufgangsmeditation", 420, "Beginne den Tag mit neuer Energie und Klarheit.", Morning, Forest),
    Seed("Gelassen durch den Tag", 600, "Finde innere Ruhe für stressige Situationen.", Anxiety, Rain),
    Seed("Atemfokus", 300, "Komme durch bewusstes Atmen im Moment an.", Focus, Waves),
    Seed("Selbstmitgefühl stärken", 540, "Begegne dir selbst mit Freundlichkeit.", CustomS, NoSound),
    Seed("Abendliche Dankbarkeit", 360, "Reflektiere, wofür du heute dankbar bist.", CustomS, Forest),
    Seed("Mentale Klarheit", 480, "Sortiere deine Gedanken für mehr Fokus.", Focus, Rain),
    Seed("Kurze Pause", 180, "Entspanne dich in wenigen Minuten.", Anxiety, NoSound),
    Seed("Körperreise", 900, "Spüre und entspanne deinen gesamten Körper.", Sleep, Waves),
    Seed("Positive Affirmationen", 300, "Stärke dein Selbstvertrauen mit positiven Gedanken.", CustomS, Forest),
    Seed("Loslassen am Abend", 600, "Lass den Tag los und finde Ruhe.", Sleep, Rain),
    Seed("Kreative Pause", 420, "Fördere deine Kreativität durch Entspannung.", CustomS, Waves),
    Seed("Selbstbewusstsein stärken", 480, "Fühle dich stark und selbstsicher.", CustomS, NoSound),
    Seed("Ruhe in der Natur", 600, "Entspanne mit beruhigenden Naturklängen.", Morning, Forest),
    Seed("Achtsam essen", 300, "Genieße dein Essen bewusst und achtsam.", CustomS, NoSound)
  ]

  /**
   * The seed catalog (`defaultOptions`). Each seed receives a fresh
   * identifier from `ids` and the creation instant `now`.
   */
  function DefaultOptions(ids: seq<Uuid>, now: Instant): (r: seq<MeditationOption>)
    requires |ids| == |Seeds|
    ensures |r| == |Seeds|
    ensures forall i :: 0 <= i < |r| ==>
              && r[i].id == ids[i] && r[i].title == Seeds[i].title
              && r[i].duration == Seeds[i].duration && r[i].description == Seeds[i].description
              && r[i].category == Seeds[i].category && r[i].backgroundSound == Seeds[i].sound
              && r[i].creationDate == now
    ensures forall i :: 0 <= i < |r| ==>
              && !r[i].isFavorite && r[i].lastUsed == None
              && r[i].completedSessions == 0 && r[i].totalMeditationTime == 0
  {
    seq(|Seeds|, i requires 0 <= i < |Seeds| =>
      NewOption(ids[i], Seeds[i].title, Seeds[i].duration, Seeds[i].description,
                Seeds[i].category, now, Seeds[i].sound))
  }

  /** Every seed lasts between 3 and 15 minutes, in whole minutes. */
  lemma SeedDurationsInWholeMinutes()
    ensures |Seeds| == 27
    ensures forall i :: 0 <= i < |Seeds| ==>
              180 <= Seeds[i].duration <= 900 && Seeds[i].duration % 60 == 0
  {
  }

  // ---------------------------------------------------------------------
  // Statistics records

  datatype MeditationSession = MeditationSession(
    id: Uuid,
    meditationId: Uuid,
    startTime: Instant,
    duration: nat,
    completed: bool)

  datatype Achievement = Achievement(
    id: Uuid,
    title: string,
    description: string,
    imageName: string,
    isUnlocked: bool,
    dateUnlocked: Option<Instant>)

  // ---------------------------------------------------------------------
  // Preferences

  datatype AppTheme = Light | Dark | System

  /** The reminder time of day; the calendar date the app stores with it is never read. */
  datatype TimeOfDay = TimeOfDay(hour: nat, minute: nat)

  datatype UserPreferences = UserPreferences(
    enableNotifications: bool,
    dailyReminderTime: TimeOfDay,
    preferredTheme: AppTheme,
    hapticFeedback: bool,
    enableBackgroundSounds: bool,
    defaultBackgroundSound: BackgroundSound,
    defaultMeditationDuration: nat,
    autoStartBreathingExercise: bool,
    enableBackgroundMusic: bool,
    selectedBackgroundMusicTrack: BackgroundMusicTrack,
    backgroundMusicVolume: real)

  /** `UserPreferences()`: every field at its declared default. */
  const DefaultPreferences: UserPreferences :=
    UserPreferences(
      enableNotifications := true,
      dailyReminderTime := TimeOfDay(8, 0),
      preferredTheme := System,
      hapticFeedback := true,
      enableBackgroundSounds := true,
      defaultBackgroundSound := NoSound,
      defaultMeditationDuration := 300,
      autoStartBreathingExercise := false,
      enableBackgroundMusic := true,
      selectedBackgroundMusicTrack := PeacefulPiano,
      backgroundMusicVolume := 0.5)

  /** `resetToDefaults`: the whole value is replaced by a fresh default one. */
  function ResetToDefaults(p: UserPreferences): UserPreferences {
    DefaultPreferences
  }

  /** Resetting forgets the input, is idempotent, and lands on sensible defaults. */
  lemma ResetToDefaultsSpec(p: UserPreferences, q: UserPreferences)
    ensures ResetToDefaults(p) == ResetToDefaults(q)
    ensures ResetToDefaults(ResetToDefaults(p)) == ResetToDefaults(p)
    ensures var d := ResetToDefaults(p);
            && 0.0 <= d.backgroundMusicVolume <= 1.0
            && d.defaultMeditationDuration == 300
            && d.defaultBackgroundSound == NoSound
            && d.selectedBackgroundMusicTrack == PeacefulPiano
            && d.enableNotifications && d.enableBackgroundSounds && d.enableBackgroundMusic
            && !d.autoStartBreathingExercise
  {
  }

  // ---------------------------------------------------------------------
  // User statistics

  datatype UserData = UserData(
    meditationHistory: seq<MeditationSession>,
    achievements: seq<Achievement>,
    dailyGoal: nat,
    streak: nat,
    preferences: UserPreferences,
    totalMindfulTime: nat,
    longestStreak: nat,
    lastMeditationDate: Option<int>,    // a day number, see DataStore.DayOf
    meditationCount: map<Uuid, nat>)

  /** `UserData()`: every field at its declared default. */
  const DefaultUserData: UserData :=
    UserData(
      meditationHistory := [],
      achievements := [],
      dailyGoal := 600,
      streak := 0,
      preferences := DefaultPreferences,
      totalMindfulTime := 0,
      longestStreak := 0,
      lastMeditationDate := None,
      meditationCount := map[])

  /** A fresh statistics record is empty: nothing logged, no streak, a ten-minute goal. */
  lemma DefaultUserDataIsEmpty()
    ensures DefaultUserData.meditationHistory == [] && DefaultUserData.achievements == []
    ensures DefaultUserData.meditationCount == map[]
    ensures DefaultUserData.streak == 0 && DefaultUserData.longestStreak == 0
    ensures DefaultUserData.totalMindfulTime == 0 && DefaultUserData.dailyGoal == 600
    ensures DefaultUserData.lastMeditationDate == None
    ensures DefaultUserData.preferences == DefaultPreferences
  {
  }
}
