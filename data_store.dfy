/**
 * The data store: the meditation catalog (an ordered list of entries),
 * the user statistics with the session history and the day streak, and
 * the user preferences.
 *
 * Persistence is reduced to what loading yields: each of the three saved
 * values is either present or absent, and an absent value falls back to
 * its default. Saving, notification scheduling and the permission
 * callbacks are not part of this model. "Now" is always a parameter.
 */
module DataStore {
  import opened Optional
  import opened Models
  import Music

  const SecondsPerDay: nat := 86400

  /** The calendar day of an instant, as a day number (one fixed time zone). */
  function DayOf(t: Instant): int {
    t / SecondsPerDay
  }

  // ---------------------------------------------------------------------
  // Finding an entry by identifier (`firstIndex(where:)`)

  /** The position of the first entry with identifier `id`, if there is one. */
  function FirstIndex(s: seq<MeditationOption>, id: Uuid): (r: Option<nat>)
    ensures r.Some? ==> r.value < |s| && s[r.value].id == id
    ensures r.Some? ==> forall j :: 0 <= j < r.value ==> s[j].id != id
    ensures r.None? <==> forall j :: 0 <= j < |s| ==> s[j].id != id
  {
    if s == [] then None
    else if s[0].id == id then Some(0)
    else match FirstIndex(s[1..], id)
      case None => None
      case Some(k) => Some(k + 1)
  }

  /** Two catalogs whose identifiers agree position by position have the same first matches. */
  lemma FirstIndexSameIds(s: seq<MeditationOption>, t: seq<MeditationOption>, id: Uuid)
    requires |s| == |t|
    requires forall j :: 0 <= j < |s| ==> s[j].id == t[j].id
    ensures FirstIndex(s, id) == FirstIndex(t, id)
  {
    var a, b := FirstIndex(s, id), FirstIndex(t, id);
    if a.Some? && b.Some? {
      assert !(a.value < b.value) && !(b.value < a.value);
    }
  }

  /** `updateMeditation` on a catalog: the first entry with the same identifier is replaced. */
  function Replaced(s: seq<MeditationOption>, m: MeditationOption): (r: seq<MeditationOption>)
    ensures |r| == |s|
    ensures FirstIndex(s, m.id).Some? ==> r[FirstIndex(s, m.id).value] == m
    ensures forall j :: 0 <= j < |s| && FirstIndex(s, m.id) != Some(j) ==> r[j] == s[j]
    ensures FirstIndex(s, m.id).None? ==> r == s
  {
    match FirstIndex(s, m.id)
    case None => s
    case Some(i) => s[i := m]
  }

  // ---------------------------------------------------------------------
  // Removing entries at a set of positions (`remove(atOffsets:)`)

  /** The positions below `n` that are not in `offsets`, in increasing order. */
  function Kept(n: nat, offsets: set<nat>): (r: seq<nat>)
    ensures forall j :: 0 <= j < |r| ==> r[j] < n
  {
    if n == 0 then [] else Kept(n - 1, offsets) + (if n - 1 in offsets then [] else [n - 1])
  }

  /**
   * The entries at the kept positions, in their original order: never
   * longer than the list, and made only of its entries.
   */
  function RemoveAt<T>(s: seq<T>, offsets: set<nat>): (r: seq<T>)
    ensures |r| <= |s|
    ensures forall x :: x in r ==> x in s
  {
    var k := Kept(|s|, offsets);
    KeptLength(|s|, offsets);
    seq(|k|, j requires 0 <= j < |k| => s[k[j]])
  }

  /** The offsets that fall inside a list of length `n`. */
  function Below(offsets: set<nat>, n: nat): set<nat> {
    set i | i in offsets && i < n
  }

  lemma {:induction false} KeptIncreasing(n: nat, offsets: set<nat>)
    ensures forall i, j :: 0 <= i < j < |Kept(n, offsets)| ==> Kept(n, offsets)[i] < Kept(n, offsets)[j]
  {
    if n > 0 {
      KeptIncreasing(n - 1, offsets);
    }
  }

  lemma {:induction false} KeptExactly(n: nat, offsets: set<nat>)
    ensures forall i :: 0 <= i < n ==> (i in Kept(n, offsets) <==> i !in offsets)
  {
    if n > 0 {
      KeptExactly(n - 1, offsets);
      assert n - 1 !in Kept(n - 1, offsets);
    }
  }

  lemma {:induction false} KeptLength(n: nat, offsets: set<nat>)
    ensures |Kept(n, offsets)| + |Below(offsets, n)| == n
  {
    if n > 0 {
      KeptLength(n - 1, offsets);
      if n - 1 in offsets {
        assert Below(offsets, n) == Below(offsets, n - 1) + {n - 1};
      } else {
        assert Below(offsets, n) == Below(offsets, n - 1);
      }
    }
  }

  /**
   * Removing at `offsets` keeps exactly the entries whose position is not
   * an offset, in their original order: the result is the list `s` read at
   * the increasing positions `Kept(|s|, offsets)`, and one entry shorter
   * per offset inside the list.
   */
  lemma RemoveAtSpec<T>(s: seq<T>, offsets: set<nat>)
    ensures var r, k := RemoveAt(s, offsets), Kept(|s|, offsets);
      && |r| == |k| == |s| - |Below(offsets, |s|)|
      && (forall j :: 0 <= j < |r| ==> r[j] == s[k[j]])
      && (forall i, j :: 0 <= i < j < |k| ==> k[i] < k[j])
      && (forall i :: 0 <= i < |s| ==> (i in k <==> i !in offsets))
  {
    KeptIncreasing(|s|, offsets);
    KeptExactly(|s|, offsets);
    KeptLength(|s|, offsets);
  }

  /** Removing the entry at one position in range splices it out. */
  lemma RemoveOne<T>(s: seq<T>, i: nat)
    requires i < |s|
    ensures RemoveAt(s, {i}) == s[..i] + s[i + 1..]
  {
    KeptSkipping(|s|, i);
  }

  lemma {:induction false} KeptSkipping(n: nat, i: nat)
    requires i < n
    ensures |Kept(n, {i})| == n - 1
    ensures forall j :: 0 <= j < n - 1 ==> Kept(n, {i})[j] == if j < i then j else j + 1
  {
    if n - 1 > i {
      KeptSkipping(n - 1, i);
    } else {
      KeptAll(n - 1, {i});
    }
  }

  lemma {:induction false} KeptAll(n: nat, offsets: set<nat>)
    requires forall i :: i in offsets ==> i >= n
    ensures |Kept(n, offsets)| == n
    ensures forall j :: 0 <= j < n ==> Kept(n, offsets)[j] == j
  {
    if n > 0 {
      KeptAll(n - 1, offsets);
    }
  }

  /** Removal on a list one longer: the new last entry survives unless its position is an offset. */
  lemma RemoveAtSnoc<T>(s: seq<T>, i: nat, offsets: set<nat>)
    requires i < |s|
    ensures RemoveAt(s[..i + 1], offsets) ==
            RemoveAt(s[..i], offsets) + (if i in offsets then [] else [s[i]])
  {
  }

  // ---------------------------------------------------------------------
  // Completing a session

  /** The history record of a completed session; it is dated back by its duration. */
  function SessionRecord(sessionId: Uuid, meditationId: Uuid, duration: nat, now: Instant): MeditationSession {
    MeditationSession(sessionId, meditationId, now - duration, duration, true)
  }

  /** One more completed session of `duration` seconds, used at `now`. */
  function EntryCompleted(e: MeditationOption, duration: nat, now: Instant): MeditationOption {
    e.(completedSessions := e.completedSessions + 1,
       totalMeditationTime := e.totalMeditationTime + duration,
       lastUsed := Some(now))
  }

  /** The catalog after a session: the first entry with the identifier, if any, is counted. */
  function CatalogAfterSession(s: seq<MeditationOption>, id: Uuid, duration: nat, now: Instant): (r: seq<MeditationOption>)
    ensures |r| == |s|
    ensures forall j :: 0 <= j < |s| ==> r[j].id == s[j].id
  {
    match FirstIndex(s, id)
    case None => s
    case Some(i) => s[i := EntryCompleted(s[i], duration, now)]
  }

  /**
   * Completing a session touches only the first matching entry: one more
   * session, `duration` more seconds, last used now. Every other entry,
   * including later entries with the same identifier, stays as it was.
   */
  lemma CatalogAfterSessionSpec(s: seq<MeditationOption>, id: Uuid, duration: nat, now: Instant)
    ensures var r := CatalogAfterSession(s, id, duration, now);
      && |r| == |s|
      && (forall j :: 0 <= j < |s| && FirstIndex(s, id) != Some(j) ==> r[j] == s[j])
      && (FirstIndex(s, id).Some? ==>
            var i := FirstIndex(s, id).value;
            && r[i].completedSessions == s[i].completedSessions + 1
            && r[i].totalMeditationTime == s[i].totalMeditationTime + duration
            && r[i].lastUsed == Some(now)
            && r[i] == s[i].(completedSessions := r[i].completedSessions,
                             totalMeditationTime := r[i].totalMeditationTime,
                             lastUsed := r[i].lastUsed))
  {
  }

  // ---------------------------------------------------------------------
  // The day streak

  /**
   * The streak after a session on day `today`, given the streak and the
   * day of the previous session: no previous day starts at 1, the same
   * day keeps it, the day before extends it, anything else restarts at 1.
   * So a session adds at most one day, and a session on a new day is
   * always counted.
   */
  function StreakAfter(streak: nat, last: Option<int>, today: int): (r: nat)
    ensures r <= streak + 1
    ensures last != Some(today) ==> r >= 1
  {
    match last
    case None => 1
    case Some(d) => if d == today then streak else if d == today - 1 then streak + 1 else 1
  }

  /** The streak rule as a table. */
  lemma StreakTable(streak: nat, today: int, older: int)
    requires older < today - 1
    ensures StreakAfter(streak, None, today) == 1
    ensures StreakAfter(streak, Some(today), today) == streak
    ensures StreakAfter(streak, Some(today - 1), today) == streak + 1
    ensures StreakAfter(streak, Some(older), today) == 1
  {
  }

  /** The part of the statistics the streak rule reads and writes. */
  datatype StreakState = StreakState(streak: nat, lastDay: Option<int>)

  /** The streak state after sessions on each of `days` in turn, from a fresh record. */
  function StreakOver(days: seq<int>): StreakState {
    if days == [] then StreakState(0, None)
    else
      var p := StreakOver(days[..|days| - 1]);
      var today := days[|days| - 1];
      StreakState(StreakAfter(p.streak, p.lastDay, today), Some(today))
  }

  predicate NonDecreasing(days: seq<int>) {
    forall i, j :: 0 <= i < j < |days| ==> days[i] <= days[j]
  }

  /**
   * What the streak counts: for sessions on days that never go back in
   * time, the streak is the number of calendar days, ending on the day of
   * the latest session, on each of which some session was completed; the
   * day just before that run has no session.
   */
  lemma {:induction false} StreakCountsConsecutiveDays(days: seq<int>)
    requires |days| > 0 && NonDecreasing(days)
    ensures var st := StreakOver(days); var last := days[|days| - 1];
      && st.lastDay == Some(last)
      && st.streak >= 1
      && (forall d :: last - st.streak < d <= last ==> d in days)
      && last - st.streak !in days
  {
    var last := days[|days| - 1];
    if |days| == 1 {
      assert StreakOver(days) == StreakState(1, Some(last));
      assert days == [last];
    } else {
      var pre := days[..|days| - 1];
      assert NonDecreasing(pre);
      StreakCountsConsecutiveDays(pre);
      var p := StreakOver(pre);
      var prev := pre[|pre| - 1];
      assert forall x :: x in pre ==> x <= prev;
      assert days == pre + [last];
      var st := StreakOver(days);
      if prev == last {
        assert st.streak == p.streak;
      } else if prev == last - 1 {
        assert st.streak == p.streak + 1;
        forall d | last - st.streak < d <= last ensures d in days {
          if d < last {
            assert prev - p.streak < d <= prev;
          }
        }
      } else {
        assert st.streak == 1;
        assert prev < last - 1;
      }
    }
  }

  /** Sessions on `k` consecutive days, starting from a fresh record, give a streak of `k`. */
  lemma {:induction false} ConsecutiveDaysStreak(first: int, k: nat)
    requires k > 0
    ensures StreakOver(seq(k, i => first + i)) == StreakState(k, Some(first + k - 1))
  {
    var days := seq(k, i => first + i);
    if k > 1 {
      assert days[..k - 1] == seq(k - 1, i => first + i);
      ConsecutiveDaysStreak(first, k - 1);
    }
  }

  /** A second session on the same day leaves the streak state as the first one left it. */
  lemma SameDayIdempotent(streak: nat, last: Option<int>, today: int)
    ensures var s1 := StreakAfter(streak, last, today);
            StreakAfter(s1, Some(today), today) == s1
  {
  }

  /** The statistics after a completed session (`completeMeditationSession`, user-data part). */
  function UserDataAfterSession(u: UserData, sessionId: Uuid, meditationId: Uuid,
                                duration: nat, now: Instant): (r: UserData)
    ensures |r.meditationHistory| == |u.meditationHistory| + 1
    ensures r.meditationHistory[..|u.meditationHistory|] == u.meditationHistory
    ensures r.lastMeditationDate == Some(DayOf(now))
  {
    u.(meditationHistory := u.meditationHistory + [SessionRecord(sessionId, meditationId, duration, now)],
       streak := StreakAfter(u.streak, u.lastMeditationDate, DayOf(now)),
       lastMeditationDate := Some(DayOf(now)))
  }

  /**
   * A completed session appends exactly one completed record, with the given
   * entry identifier and duration, started `duration` seconds before now,
   * whether or not the entry is in the catalog. The streak follows the rule
   * and the last day becomes today. Achievements, the longest streak, the
   * mindful time, the goal and the per-entry counts are left alone.
   */
  lemma UserDataAfterSessionSpec(u: UserData, sessionId: Uuid, meditationId: Uuid,
                                 duration: nat, now: Instant)
    ensures var r := UserDataAfterSession(u, sessionId, meditationId, duration, now);
      && |r.meditationHistory| == |u.meditationHistory| + 1
      && r.meditationHistory[..|u.meditationHistory|] == u.meditationHistory
      && (var rec := r.meditationHistory[|u.meditationHistory|];
          && rec.completed && rec.meditationId == meditationId && rec.id == sessionId
          && rec.duration == duration && rec.startTime == now - duration)
      && r.streak == StreakAfter(u.streak, u.lastMeditationDate, DayOf(now))
      && r.lastMeditationDate == Some(DayOf(now))
      && r.achievements == u.achievements && r.longestStreak == u.longestStreak
      && r.totalMindfulTime == u.totalMindfulTime && r.meditationCount == u.meditationCount
      && r.dailyGoal == u.dailyGoal && r.preferences == u.preferences
  {
  }

  // ---------------------------------------------------------------------
  // The store

  class Store {
    var meditationOptions: seq<MeditationOption>
    var userData: UserData
    var userPreferences: UserPreferences

    /**
     * Creation and loading: a saved catalog, statistics record or
     * preferences value is used when present; an absent or unreadable one
     * falls back to the seed catalog, fresh statistics or default
     * preferences, each on its own. Saved preferences are assigned after
     * the object exists, so their hook runs: the music player is brought in
     * line with them, and with no saved preferences it is left alone.
     */
    constructor (savedOptions: Option<seq<MeditationOption>>, savedUserData: Option<UserData>,
                 savedPreferences: Option<UserPreferences>, seedIds: seq<Uuid>, now: Instant,
                 music: Music.MusicPlayer)
      requires |seedIds| == |Seeds|
      requires music.Valid()
      modifies music
      ensures meditationOptions == savedOptions.GetOr(DefaultOptions(seedIds, now))
      ensures userData == savedUserData.GetOr(DefaultUserData)
      ensures userPreferences == savedPreferences.GetOr(DefaultPreferences)
      ensures music.Valid()
      ensures savedPreferences.Some? ==>
                music.State() == Music.PlaybackUpdated(old(music.State()), savedPreferences.value, music.bundledTracks)
      ensures savedPreferences.None? ==> music.State() == old(music.State())
    {
      meditationOptions := savedOptions.GetOr(DefaultOptions(seedIds, now));
      userData := savedUserData.GetOr(DefaultUserData);
      userPreferences := DefaultPreferences;
      new;
      if savedPreferences.Some? {
        SetPreferences(savedPreferences.value, music);
      }
    }

    /** The linear search behind `firstIndex(where: { $0.id == id })`. */
    method FindFirst(id: Uuid) returns (index: Option<nat>)
      ensures index == FirstIndex(meditationOptions, id)
      ensures index.Some? ==> index.value < |meditationOptions| && meditationOptions[index.value].id == id
    {
      var i := 0;
      while i < |meditationOptions|
        invariant 0 <= i <= |meditationOptions|
        invariant forall j :: 0 <= j < i ==> meditationOptions[j].id != id
      {
        if meditationOptions[i].id == id {
          var f := FirstIndex(meditationOptions, id);
          assert f.Some? && !(f.value < i) && !(i < f.value);
          return Some(i);
        }
        i := i + 1;
      }
      return None;
    }

    /** `addMeditation`: the entry, stamped with the current instant, goes at the end. */
    method AddMeditation(m: MeditationOption, now: Instant)
      modifies this
      ensures meditationOptions == old(meditationOptions) + [m.(creationDate := now)]
      ensures userData == old(userData) && userPreferences == old(userPreferences)
    {
      meditationOptions := meditationOptions + [m.(creationDate := now)];
    }

    /** `updateMeditation`: the first entry with the same identifier is replaced, if any. */
    method UpdateMeditation(m: MeditationOption)
      modifies this
      ensures meditationOptions == Replaced(old(meditationOptions), m)
      ensures userData == old(userData) && userPreferences == old(userPreferences)
    {
      var index := FindFirst(m.id);
      if index.Some? {
        meditationOptions := meditationOptions[index.value := m];
      }
    }

    /** `deleteMeditation(at:)`: every offset must lie inside the catalog. */
    method DeleteMeditation(offsets: set<nat>)
      requires forall i :: i in offsets ==> i < |meditationOptions|
      modifies this
      ensures meditationOptions == RemoveAt(old(meditationOptions), offsets)
      ensures userData == old(userData) && userPreferences == old(userPreferences)
    {
      var options := meditationOptions;
      var kept: seq<MeditationOption> := [];
      var i := 0;
      while i < |options|
        invariant 0 <= i <= |options|
        invariant kept == RemoveAt(options[..i], offsets)
        invariant unchanged(this)
      {
        RemoveAtSnoc(options, i, offsets);
        if i !in offsets {
          kept := kept + [options[i]];
        }
        i := i + 1;
      }
      assert options[..i] == options;
      meditationOptions := kept;
    }

    /** `completeMeditationSession`: count the session on its entry and log it in the history. */
    method CompleteMeditationSession(meditationId: Uuid, duration: nat, now: Instant, sessionId: Uuid)
      modifies this
      ensures meditationOptions == CatalogAfterSession(old(meditationOptions), meditationId, duration, now)
      ensures userData == UserDataAfterSession(old(userData), sessionId, meditationId, duration, now)
      ensures userPreferences == old(userPreferences)
    {
      var index := FindFirst(meditationId);
      if index.Some? {
        var i := index.value;
        meditationOptions := meditationOptions[i := EntryCompleted(meditationOptions[i], duration, now)];
      }
      var session := MeditationSession(sessionId, meditationId, now - duration, duration, true);
      userData := userData.(meditationHistory := userData.meditationHistory + [session]);
      UpdateStreak(now);
      // The achievement check is an empty placeholder that only saves.
    }

    /** `updateStreak`: apply the streak rule for a session completed at `now`. */
    method UpdateStreak(now: Instant)
      modifies this
      ensures userData == old(userData).(streak := StreakAfter(old(userData).streak, old(userData).lastMeditationDate, DayOf(now)),
                                         lastMeditationDate := Some(DayOf(now)))
      ensures meditationOptions == old(meditationOptions) && userPreferences == old(userPreferences)
    {
      var today := DayOf(now);
      match userData.lastMeditationDate {
        case Some(lastDay) =>
          if lastDay == today {
            return;
          } else if lastDay == today - 1 {
            userData := userData.(streak := userData.streak + 1);
          } else {
            userData := userData.(streak := 1);
          }
        case None =>
          userData := userData.(streak := 1);
      }
      userData := userData.(lastMeditationDate := Some(today));
    }

    /** `logBreathingSession`: only the total mindful time grows. */
    method LogBreathingSession(duration: nat)
      modifies this
      ensures userData == old(userData).(totalMindfulTime := old(userData).totalMindfulTime + duration)
      ensures meditationOptions == old(meditationOptions) && userPreferences == old(userPreferences)
    {
      userData := userData.(totalMindfulTime := userData.totalMindfulTime + duration);
    }

    /** `incrementMeditationCount`: one more use of the entry (from 0) and its duration as mindful time. */
    method IncrementMeditationCount(m: MeditationOption)
      modifies this
      ensures m.id in userData.meditationCount
      ensures userData.meditationCount[m.id] ==
              (if m.id in old(userData).meditationCount then old(userData).meditationCount[m.id] else 0) + 1
      ensures forall k :: k != m.id ==> (k in userData.meditationCount <==> k in old(userData).meditationCount)
      ensures forall k :: k != m.id && k in userData.meditationCount ==>
                userData.meditationCount[k] == old(userData).meditationCount[k]
      ensures userData == old(userData).(meditationCount := userData.meditationCount,
                                         totalMindfulTime := old(userData).totalMindfulTime + m.duration)
      ensures meditationOptions == old(meditationOptions) && userPreferences == old(userPreferences)
    {
      var count := if m.id in userData.meditationCount then userData.meditationCount[m.id] else 0;
      userData := userData.(meditationCount := userData.meditationCount[m.id := count + 1],
                            totalMindfulTime := userData.totalMindfulTime + m.duration);
    }

    /** `resetAllStatistics`: the statistics start over; catalog and preferences stay. */
    method ResetAllStatistics()
      modifies this
      ensures userData == DefaultUserData
      ensures meditationOptions == old(meditationOptions) && userPreferences == old(userPreferences)
    {
      userData := DefaultUserData;
    }

    /**
     * Assigning the preferences: the new value is stored and the music
     * player is brought in line with it (`updatePlayback`). Saving and the
     * notification rescheduling that follow an assignment are not modelled.
     */
    method SetPreferences(p: UserPreferences, music: Music.MusicPlayer)
      requires music.Valid()
      modifies this, music
      ensures userPreferences == p
      ensures music.Valid()
      ensures music.State() == Music.PlaybackUpdated(old(music.State()), p, music.bundledTracks)
      ensures meditationOptions == old(meditationOptions) && userData == old(userData)
    {
      userPreferences := p;
      music.UpdatePlayback(p);
    }
  }
}
