/**
 * The guided breathing exercise: ten cycles of inhale (4 s), hold (1 s),
 * exhale (6 s), hold (1 s), shown as an instruction and the scale of a
 * circle. Each phase change is a callback scheduled a fixed delay after
 * the cycle began; here each callback is an event method, guarded only by
 * `isAnimating` exactly as the scheduled closures are, so the events may
 * arrive in any order and stale ones from a stopped cycle are accepted
 * too. The state of the view is the `Breath` value; the view object is
 * `BreathingExercise`, whose methods are proved against the functions on
 * `Breath` below.
 */
module Breathing {
  import opened Models
  import opened DataStore

  const InhaleDuration: nat := 4
  const HoldAfterInhaleDuration: nat := 1
  const ExhaleDuration: nat := 6
  const HoldAfterExhaleDuration: nat := 1

  /** The number of cycles of one exercise. */
  const CycleCount: nat := 10

  /** `cycleDuration`: the four phases together. */
  function CycleDuration(): (r: nat)
    ensures r == 12
  {
    InhaleDuration + HoldAfterInhaleDuration + ExhaleDuration + HoldAfterExhaleDuration
  }

  const Inhale: string := "Einatmen"
  const Hold: string := "Halten"
  const Exhale: string := "Ausatmen"
  const Finished: string := "Abgeschlossen!"
  const WellDone: string := "Sehr gut! Übung beendet."

  /** The view's state: circle scale, instruction, whether a cycle runs, cycles left. */
  datatype Breath = Breath(scale: real, instruction: string, isAnimating: bool, breathsRemaining: nat)

  /** The state the view starts in. */
  const InitialBreath: Breath := Breath(1.0, Inhale, false, CycleCount)

  /** The state after the last cycle has finished. */
  const Completed: Breath := Breath(1.0, WellDone, false, 0)

  /** At most ten cycles are left, and an animating exercise has at least one. */
  predicate Sane(b: Breath) {
    b.breathsRemaining <= CycleCount && (b.isAnimating ==> b.breathsRemaining > 0)
  }

  /**
   * The synchronous part of `animateBreathCycle`: a running exercise with
   * cycles left begins to inhale; with none left it shows "Abgeschlossen!"
   * and stops; a stopped one with cycles left is left alone.
   */
  function CycleBegun(b: Breath): (r: Breath)
    ensures b.isAnimating && b.breathsRemaining > 0 ==>
              r == b.(instruction := Inhale, scale := 1.5)
    ensures b.breathsRemaining == 0 ==> r == b.(instruction := Finished, isAnimating := false)
    ensures !b.isAnimating && b.breathsRemaining > 0 ==> r == b
  {
    if b.isAnimating && b.breathsRemaining > 0 then b.(instruction := Inhale, scale := 1.5)
    else if b.breathsRemaining == 0 then b.(instruction := Finished, isAnimating := false)
    else b
  }

  /**
   * `startExercise`: nothing while animating; otherwise a finished count
   * restarts at ten, a stopped one continues, and a cycle begins.
   */
  function ExerciseStarted(b: Breath): (r: Breath)
    ensures b.isAnimating ==> r == b
    ensures !b.isAnimating ==>
              && r.isAnimating && r.instruction == Inhale && r.scale == 1.5
              && r.breathsRemaining == (if b.breathsRemaining == 0 then CycleCount else b.breathsRemaining)
  {
    if b.isAnimating then b
    else
      var n := if b.breathsRemaining == 0 then CycleCount else b.breathsRemaining;
      CycleBegun(b.(breathsRemaining := n, isAnimating := true))
  }

  /** `stopExercise`: not animating, scale and instruction back to the start; the count is kept. */
  function ExerciseStopped(b: Breath): (r: Breath)
    ensures !r.isAnimating && r.scale == 1.0 && r.instruction == Inhale
    ensures r.breathsRemaining == b.breathsRemaining
  {
    b.(isAnimating := false, scale := 1.0, instruction := Inhale)
  }

  /** The hold callbacks (after inhaling and after exhaling): "Halten" while animating. */
  function Held(b: Breath): (r: Breath)
    ensures b.isAnimating ==> r == b.(instruction := Hold)
    ensures !b.isAnimating ==> r == b
  {
    if b.isAnimating then b.(instruction := Hold) else b
  }

  /** The exhale callback: "Ausatmen" and the circle shrinks to 0.75, while animating. */
  function Exhaling(b: Breath): (r: Breath)
    ensures b.isAnimating ==> r == b.(instruction := Exhale, scale := 0.75)
    ensures !b.isAnimating ==> r == b
  {
    if b.isAnimating then b.(instruction := Exhale, scale := 0.75) else b
  }

  /**
   * The end-of-cycle callback, while animating: one cycle fewer; then the
   * next cycle begins, or, after the last, the exercise ends with praise
   * and the circle at rest.
   */
  function CycleEnded(b: Breath): (r: Breath)
    requires Sane(b)
    ensures !b.isAnimating ==> r == b
    ensures b.isAnimating ==> r.breathsRemaining == b.breathsRemaining - 1
    ensures b.isAnimating && b.breathsRemaining > 1 ==>
              r.isAnimating && r.instruction == Inhale && r.scale == 1.5
    ensures b.isAnimating && b.breathsRemaining == 1 ==> r == Completed
  {
    if !b.isAnimating then b
    else
      var n := b.breathsRemaining - 1;
      if n > 0 then CycleBegun(b.(breathsRemaining := n))
      else b.(breathsRemaining := n, instruction := WellDone, scale := 1.0, isAnimating := false)
  }

  /** The seconds logged by the end-of-cycle callback: the whole exercise when the last cycle ends. */
  function LoggedAtCycleEnd(b: Breath): (r: nat)
    requires Sane(b)
    ensures r != 0 <==> b.isAnimating && b.breathsRemaining == 1
    ensures r != 0 ==> r == 120
  {
    if b.isAnimating && b.breathsRemaining == 1 then CycleDuration() * (CycleCount - 0) else 0
  }

  /** Every event keeps the cycle count within 0..10 and never animates with none left. */
  lemma EventsKeepSane(b: Breath)
    requires Sane(b)
    ensures Sane(CycleBegun(b)) && Sane(ExerciseStarted(b)) && Sane(ExerciseStopped(b))
    ensures Sane(Held(b)) && Sane(Exhaling(b)) && Sane(CycleEnded(b))
  {
  }

  /** One full cycle: inhale, hold, exhale, hold, end. */
  function OneCycle(b: Breath): (r: Breath)
    requires Sane(b)
    ensures Sane(r)
  {
    CycleEnded(Held(Exhaling(Held(b))))
  }

  /** The phases of one cycle of a running exercise, in order, with the circle's scale. */
  lemma CyclePhases(b: Breath)
    requires Sane(b) && b.isAnimating && b.instruction == Inhale && b.scale == 1.5
    ensures Held(b).instruction == Hold && Held(b).scale == 1.5
    ensures Exhaling(Held(b)).instruction == Exhale && Exhaling(Held(b)).scale == 0.75
    ensures Held(Exhaling(Held(b))).instruction == Hold && Held(Exhaling(Held(b))).scale == 0.75
    ensures OneCycle(b).breathsRemaining == b.breathsRemaining - 1
  {
  }

  /** `k` full cycles in a row, with the seconds they log. */
  function Cycles(b: Breath, k: nat): (r: (Breath, nat))
    requires Sane(b)
    ensures Sane(r.0)
    decreases k
  {
    if k == 0 then (b, 0)
    else
      var next := Cycles(OneCycle(b), k - 1);
      (next.0, LoggedAtCycleEnd(Held(Exhaling(Held(b)))) + next.1)
  }

  /**
   * A running exercise with `n` cycles left, left undisturbed, goes through
   * exactly `n` cycles to the completed state, and logs 120 seconds exactly
   * once, at the end: no earlier cycle logs anything.
   */
  lemma {:induction false} CyclesToCompletion(b: Breath, k: nat)
    requires Sane(b) && b.isAnimating && b.instruction == Inhale && b.scale == 1.5
    requires k <= b.breathsRemaining
    ensures var r := Cycles(b, k);
      && (k < b.breathsRemaining ==>
            && r.1 == 0 && r.0.isAnimating && r.0.instruction == Inhale && r.0.scale == 1.5
            && r.0.breathsRemaining == b.breathsRemaining - k)
      && (k == b.breathsRemaining ==> r == (Completed, 120))
    decreases k
  {
    if k > 0 {
      var c := OneCycle(b);
      assert LoggedAtCycleEnd(Held(Exhaling(Held(b)))) == (if b.breathsRemaining == 1 then 120 else 0);
      if b.breathsRemaining == 1 {
        assert c == Completed;
        assert Cycles(c, 0) == (Completed, 0);
      } else {
        CyclesToCompletion(c, k - 1);
      }
    }
  }

  /** Starting the exercise from the start state runs ten cycles and then logs two minutes. */
  lemma FreshExerciseLogsTwoMinutes()
    ensures Cycles(ExerciseStarted(InitialBreath), CycleCount) == (Completed, 120)
  {
    CyclesToCompletion(ExerciseStarted(InitialBreath), CycleCount);
  }

  /** The label of the start/stop button. */
  function ButtonTitle(b: Breath): string {
    if b.isAnimating then "Pause" else if b.breathsRemaining == 0 then "Neustart" else "Start"
  }

  /**
   * The label announces what a tap does: "Pause" exactly while a tap
   * stops the exercise. Starting always shows "Pause"; stopping never
   * does, and shows "Start" unless no cycle is left.
   */
  lemma ButtonTitleTracksTaps(b: Breath)
    ensures ButtonTitle(b) == "Pause" <==> b.isAnimating
    ensures ButtonTitle(ExerciseStarted(b)) == "Pause"
    ensures ButtonTitle(ExerciseStopped(b)) != "Pause"
    ensures ButtonTitle(ExerciseStopped(b)) == "Start" <==> b.breathsRemaining > 0
  {
  }

  /**
   * Over a whole exercise the button reads "Start" at first and "Neustart"
   * once the ten cycles are done; tapping it then starts ten fresh cycles.
   */
  lemma ButtonTitleOverExercise()
    ensures ButtonTitle(InitialBreath) == "Start"
    ensures var done := Cycles(ExerciseStarted(InitialBreath), CycleCount).0;
      && ButtonTitle(done) == "Neustart"
      && ExerciseStarted(done).breathsRemaining == CycleCount
  {
    FreshExerciseLogsTwoMinutes();
  }

  class BreathingExercise {
    var scale: real
    var instruction: string
    var isAnimating: bool
    var breathsRemaining: nat
    const store: Store

    function State(): Breath
      reads this
    {
      Breath(scale, instruction, isAnimating, breathsRemaining)
    }

    ghost predicate Valid()
      reads this
    {
      Sane(State())
    }

    constructor (store: Store)
      ensures Valid() && State() == InitialBreath && this.store == store
    {
      this.store := store;
      scale, instruction, isAnimating, breathsRemaining := 1.0, Inhale, false, CycleCount;
    }

    method StartExercise()
      requires Valid()
      modifies this
      ensures Valid() && State() == ExerciseStarted(old(State()))
    {
      if isAnimating {
        return;
      }
      if breathsRemaining == 0 {
        breathsRemaining := CycleCount;
      }
      isAnimating := true;
      AnimateBreathCycle();
    }

    method StopExercise()
      requires Valid()
      modifies this
      ensures Valid() && State() == ExerciseStopped(old(State()))
    {
      isAnimating := false;
      scale := 1.0;
      instruction := Inhale;
    }

    /** `animateBreathCycle`, without the callbacks it schedules (they are the event methods below). */
    method AnimateBreathCycle()
      requires Valid()
      modifies this
      ensures Valid() && State() == CycleBegun(old(State()))
    {
      if !(isAnimating && breathsRemaining > 0) {
        if breathsRemaining == 0 {
          instruction := Finished;
          isAnimating := false;
        }
        return;
      }
      instruction := Inhale;
      scale := 1.5;
    }

    /** The callback `inhaleDuration` seconds after a cycle began. */
    method OnHoldAfterInhale()
      requires Valid()
      modifies this
      ensures Valid() && State() == Held(old(State()))
    {
      if !isAnimating {
        return;
      }
      instruction := Hold;
    }

    /** The callback after inhaling and holding. */
    method OnExhale()
      requires Valid()
      modifies this
      ensures Valid() && State() == Exhaling(old(State()))
    {
      if !isAnimating {
        return;
      }
      instruction := Exhale;
      scale := 0.75;
    }

    /** The callback after exhaling. */
    method OnHoldAfterExhale()
      requires Valid()
      modifies this
      ensures Valid() && State() == Held(old(State()))
    {
      if !isAnimating {
        return;
      }
      instruction := Hold;
    }

    /** The callback `cycleDuration` seconds after a cycle began: the completion is logged here. */
    method OnCycleEnd()
      requires Valid()
      modifies this, store
      ensures Valid() && State() == CycleEnded(old(State()))
      ensures store.userData == old(store.userData).(totalMindfulTime :=
                old(store.userData).totalMindfulTime + LoggedAtCycleEnd(old(State())))
      ensures store.meditationOptions == old(store.meditationOptions)
      ensures store.userPreferences == old(store.userPreferences)
    {
      if !isAnimating {
        return;
      }
      breathsRemaining := breathsRemaining - 1;
      if breathsRemaining > 0 {
        AnimateBreathCycle();
      } else {
        instruction := WellDone;
        scale := 1.0;
        isAnimating := false;
        store.LogBreathingSession(CycleDuration() * (CycleCount - breathsRemaining));
      }
    }

    /** `onAppear`: the exercise starts by itself when the preference asks for it. */
    method OnAppear()
      requires Valid()
      modifies this
      ensures Valid()
      ensures State() == if store.userPreferences.autoStartBreathingExercise
                         then ExerciseStarted(old(State())) else old(State())
    {
      if store.userPreferences.autoStartBreathingExercise {
        StartExercise();
      }
    }

    /** The start/stop button: stop a running exercise, otherwise start. */
    method ButtonTapped()
      requires Valid()
      modifies this
      ensures Valid()
      ensures State() == if old(isAnimating) then ExerciseStopped(old(State()))
                         else ExerciseStarted(old(State()))
    {
      if isAnimating {
        StopExercise();
      } else {
        StartExercise();
      }
    }
  }

  /**
   * An exercise left running until the end: whatever cycle count it is
   * started with, it finishes in the completed state and adds exactly two
   * minutes to the mindful time, and nothing else in the store changes.
   */
  method RunToCompletion(ex: BreathingExercise)
    requires ex.Valid()
    modifies ex, ex.store
    ensures ex.Valid() && ex.State() == Completed
    ensures ex.store.userData == old(ex.store.userData).(totalMindfulTime := old(ex.store.userData).totalMindfulTime + 120)
    ensures ex.store.meditationOptions == old(ex.store.meditationOptions)
    ensures ex.store.userPreferences == old(ex.store.userPreferences)
  {
    if ex.isAnimating {
      ex.StopExercise();
    }
    ex.StartExercise();
    while ex.isAnimating
      invariant ex.Valid()
      invariant ex.isAnimating ==> ex.instruction == Inhale && ex.scale == 1.5
      invariant !ex.isAnimating ==> ex.State() == Completed
      invariant ex.isAnimating ==> ex.store.userData == old(ex.store.userData)
      invariant !ex.isAnimating ==>
                  ex.store.userData == old(ex.store.userData).(totalMindfulTime := old(ex.store.userData).totalMindfulTime + 120)
      invariant ex.store.meditationOptions == old(ex.store.meditationOptions)
      invariant ex.store.userPreferences == old(ex.store.userPreferences)
      decreases ex.breathsRemaining
    {
      ex.OnHoldAfterInhale();
      ex.OnExhale();
      ex.OnHoldAfterExhale();
      ex.OnCycleEnd();
    }
  }
}
