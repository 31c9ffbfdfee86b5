/**
 * The add/edit form for a catalog entry: its initial values, when saving
 * is possible, the duration slider, the record that saving builds, and
 * whether that record updates an entry or is added as a new one.
 *
 * The identifier a new entry receives and the instant of saving are
 * parameters. The form's text fields and pickers are the `Form` value.
 */
module AddMeditation {
  import opened Optional
  import opened Models
  import opened DataStore

  /** What the form holds. */
  datatype Form = Form(
    title: string,
    description: string,
    duration: nat,
    category: MeditationCategory,
    backgroundSound: BackgroundSound)

  /**
   * The form's initial values: those of the entry being edited, or an
   * empty title and description, five minutes, the custom category and no
   * sound for a new entry.
   */
  function InitialForm(edit: Option<MeditationOption>): (f: Form)
    ensures edit.None? ==> f == Form("", "", 300, CustomS, NoSound)
    ensures edit.Some? ==>
              && f.title == edit.value.title && f.description == edit.value.description
              && f.duration == edit.value.duration && f.category == edit.value.category
              && f.backgroundSound == edit.value.backgroundSound
  {
    match edit
    case None => Form("", "", 300, CustomS, NoSound)
    case Some(m) => Form(m.title, m.description, m.duration, m.category, m.backgroundSound)
  }

  /** Both save buttons are disabled while the title is empty. */
  predicate SaveEnabled(f: Form) {
    f.title != ""
  }

  /** A new form cannot be saved until a title is typed; an entry with a title can be saved unchanged. */
  lemma SaveEnabledInitially(edit: Option<MeditationOption>)
    ensures edit.None? ==> !SaveEnabled(InitialForm(edit))
    ensures edit.Some? ==> (SaveEnabled(InitialForm(edit)) <==> edit.value.title != "")
  {
  }

  // The duration slider: one minute to one hour in steps of one minute.

  const SliderMin: nat := 60
  const SliderMax: nat := 3600
  const SliderStep: nat := 60

  /** The duration at the slider's `position`-th stop. */
  function SliderValue(position: nat): (d: nat)
    requires position <= (SliderMax - SliderMin) / SliderStep
    ensures SliderMin <= d <= SliderMax && d % SliderStep == 0
  {
    SliderMin + SliderStep * position
  }

  /** Whether `d` is one of the slider's stops. */
  predicate OnSlider(d: nat) {
    SliderMin <= d <= SliderMax && d % SliderStep == 0
  }

  /** The stop a duration on the slider sits at. */
  function SliderPosition(d: nat): (p: nat)
    requires OnSlider(d)
    ensures p <= (SliderMax - SliderMin) / SliderStep
    ensures SliderValue(p) == d
  {
    (d - SliderMin) / SliderStep
  }

  /** Stops and durations correspond one to one. */
  lemma SliderRoundTrip(p: nat)
    requires p <= (SliderMax - SliderMin) / SliderStep
    ensures OnSlider(SliderValue(p)) && SliderPosition(SliderValue(p)) == p
  {
  }

  /** The new-entry default and every seed duration lie on a slider stop. */
  lemma DefaultsOnSlider()
    ensures OnSlider(InitialForm(None).duration)
    ensures forall i :: 0 <= i < |Seeds| ==> OnSlider(Seeds[i].duration)
  {
    SeedDurationsInWholeMinutes();
  }

  /**
   * The record `saveMeditation` builds, through the entry initializer: an
   * edit keeps the identifier, the favourite mark and the creation date; a
   * new entry gets the fresh identifier, no favourite mark and "now". In
   * both cases the counters start again at zero and there is no last use.
   */
  function BuiltRecord(f: Form, edit: Option<MeditationOption>, freshId: Uuid, now: Instant): (r: MeditationOption)
    ensures r.title == f.title && r.description == f.description && r.duration == f.duration
    ensures r.category == f.category && r.backgroundSound == f.backgroundSound
    ensures edit.Some? ==>
              r.id == edit.value.id && r.isFavorite == edit.value.isFavorite
              && r.creationDate == edit.value.creationDate
    ensures edit.None? ==> r.id == freshId && !r.isFavorite && r.creationDate == now
    ensures r.completedSessions == 0 && r.totalMeditationTime == 0 && r.lastUsed == None
  {
    NewOption(
      match edit case Some(m) => m.id case None => freshId,
      f.title, f.duration, f.description, f.category,
      match edit case Some(m) => m.creationDate case None => now,
      backgroundSound := f.backgroundSound,
      isFavorite := match edit case Some(m) => m.isFavorite case None => false)
  }

  /**
   * Saving an unchanged edit form of a catalog entry leaves the entry in
   * place with every field as before except its statistics, which are
   * cleared: the completed-session count, the total time and the last use.
   */
  lemma UnchangedEditClearsStatistics(s: seq<MeditationOption>, m: MeditationOption, freshId: Uuid, now: Instant)
    requires FirstIndex(s, m.id).Some? && s[FirstIndex(s, m.id).value] == m
    ensures var r, i := Replaced(s, BuiltRecord(InitialForm(Some(m)), Some(m), freshId, now)), FirstIndex(s, m.id).value;
      && |r| == |s|
      && r[i] == m.(completedSessions := 0, totalMeditationTime := 0, lastUsed := None)
      && forall j :: 0 <= j < |s| && j != i ==> r[j] == s[j]
  {
  }

  /** Every entry of the catalog has a title. */
  predicate AllTitled(s: seq<MeditationOption>) {
    forall i :: 0 <= i < |s| ==> s[i].title != ""
  }

  /**
   * Saving is possible only with a title, so the saved record has one,
   * and a catalog whose entries all have titles keeps that after the save,
   * whether the record replaces an entry or is appended.
   */
  lemma SavingKeepsTitles(s: seq<MeditationOption>, f: Form, edit: Option<MeditationOption>, freshId: Uuid, now: Instant)
    requires SaveEnabled(f) && AllTitled(s)
    ensures var r := BuiltRecord(f, edit, freshId, now);
      && r.title != ""
      && AllTitled(Replaced(s, r))
      && AllTitled(s + [r.(creationDate := now)])
  {
    var r := BuiltRecord(f, edit, freshId, now);
    var t := s + [r.(creationDate := now)];
    assert forall i :: 0 <= i < |s| ==> t[i] == s[i];
  }

  /**
   * `saveMeditation`, reachable only with a title (both save buttons are
   * disabled while it is empty): an edit replaces the entry with the
   * edited identifier and never adds one; a new entry is appended and
   * replaces nothing. A catalog of titled entries stays titled.
   */
  method SaveMeditation(store: Store, f: Form, edit: Option<MeditationOption>, freshId: Uuid, now: Instant)
    requires SaveEnabled(f)
    modifies store
    ensures var r := BuiltRecord(f, edit, freshId, now);
      if edit.Some? then store.meditationOptions == Replaced(old(store.meditationOptions), r)
      else store.meditationOptions == old(store.meditationOptions) + [r]
    ensures edit.Some? ==> |store.meditationOptions| == |old(store.meditationOptions)|
    ensures edit.None? ==> |store.meditationOptions| == |old(store.meditationOptions)| + 1
    ensures store.userData == old(store.userData) && store.userPreferences == old(store.userPreferences)
    ensures AllTitled(old(store.meditationOptions)) ==> AllTitled(store.meditationOptions)
  {
    var r := BuiltRecord(f, edit, freshId, now);
    if AllTitled(store.meditationOptions) {
      SavingKeepsTitles(store.meditationOptions, f, edit, freshId, now);
    }
    if edit.Some? {
      store.UpdateMeditation(r);
    } else {
      store.AddMeditation(r, now);
    }
  }
}
