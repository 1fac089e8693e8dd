/**
 * The student's interaction state machine (StudentController.cs): four
 * states, a food flag and an eating countdown.  The pure `Student` value and
 * its transition functions are the specification; the class
 * `StudentController` updates its fields in place and is proved against it.
 */
module Students {

  datatype StudentState = Idle | WalkingOnSight | Seated | SeatedAndEating

  predicate IsSeated(s: StudentState) {
    s == Seated || s == SeatedAndEating
  }

  /** The three fields the state machine acts on, as one value. */
  datatype Student = Student(state: StudentState, hasFood: bool, eatingTimer: real) {

    /** Eating is only ever entered, and only ever lasts, with food in hand. */
    predicate Consistent() {
      state == SeatedAndEating ==> hasFood
    }

    function StartEating(eatingDuration: real): Student {
      if !hasFood then this
      else this.(state := SeatedAndEating, eatingTimer := eatingDuration)
    }

    function FinishEating(): Student {
      this.(hasFood := false, state := Seated)
    }

    function PickUpFood(eatingDuration: real): Student {
      var holding := this.(hasFood := true);
      if state == Seated then holding.StartEating(eatingDuration) else holding
    }

    function SitDown(): Student {
      if state != SeatedAndEating then this.(state := Seated) else this
    }

    function StandUp(): Student {
      this.(state := Idle)
    }

    function SetWalkingOnSight(): Student {
      if state != Seated && state != SeatedAndEating then this.(state := WalkingOnSight) else this
    }

    function SetIdle(): Student {
      if state != Seated && state != SeatedAndEating then this.(state := Idle) else this
    }

    /** One frame of `Update`, `dt` seconds long. */
    function Update(dt: real): Student {
      if state == SeatedAndEating then
        var counted := this.(eatingTimer := eatingTimer - dt);
        if counted.eatingTimer <= 0.0 then counted.FinishEating() else counted
      else this
    }
  }

  /** Everything that can happen to a student, one public call each. */
  datatype Event =
    | Frame(dt: real)
    | PickUpFood
    | StartEating
    | FinishEating
    | SitDown
    | StandUp
    | SetWalkingOnSight
    | SetIdle

  function Apply(s: Student, eatingDuration: real, e: Event): Student {
    match e
    case Frame(dt) => s.Update(dt)
    case PickUpFood => s.PickUpFood(eatingDuration)
    case StartEating => s.StartEating(eatingDuration)
    case FinishEating => s.FinishEating()
    case SitDown => s.SitDown()
    case StandUp => s.StandUp()
    case SetWalkingOnSight => s.SetWalkingOnSight()
    case SetIdle => s.SetIdle()
  }

  function Run(s: Student, eatingDuration: real, es: seq<Event>): Student
    decreases |es|
  {
    if es == [] then s else Run(Apply(s, eatingDuration, es[0]), eatingDuration, es[1..])
  }

  /** A run of `Update` frames only. */
  function Frames(s: Student, dts: seq<real>): Student
    decreases |dts|
  {
    if dts == [] then s else Frames(s.Update(dts[0]), dts[1..])
  }

  function Elapsed(dts: seq<real>): real
    decreases |dts|
  {
    if dts == [] then 0.0 else dts[0] + Elapsed(dts[1..])
  }

  predicate AllPositive(dts: seq<real>) {
    forall i :: 0 <= i < |dts| ==> dts[i] > 0.0
  }

  // ---------------------------------------------------------------- transitions

  lemma StartEatingNeedsFood(s: Student, d: real)
    ensures !s.hasFood ==> s.StartEating(d) == s
    ensures s.hasFood ==> s.StartEating(d) == s.(state := SeatedAndEating, eatingTimer := d)
  {
  }

  lemma FinishEatingSeatsWithoutFood(s: Student)
    ensures !s.FinishEating().hasFood && s.FinishEating().state == Seated
    ensures s.FinishEating().eatingTimer == s.eatingTimer
  {
  }

  lemma SitDownNeverInterruptsEating(s: Student)
    ensures s.state == SeatedAndEating ==> s.SitDown() == s
    ensures s.state != SeatedAndEating ==> s.SitDown() == s.(state := Seated)
  {
  }

  lemma StandUpAlwaysIdles(s: Student)
    ensures s.StandUp().state == Idle
    ensures s.StandUp().hasFood == s.hasFood && s.StandUp().eatingTimer == s.eatingTimer
  {
  }

  lemma LocomotionIgnoredWhileSeated(s: Student)
    ensures IsSeated(s.state) ==> s.SetWalkingOnSight() == s && s.SetIdle() == s
    ensures !IsSeated(s.state) ==>
      s.SetWalkingOnSight() == s.(state := WalkingOnSight) && s.SetIdle() == s.(state := Idle)
  {
  }

  lemma PickUpFoodEatsWhenSeated(s: Student, d: real)
    ensures s.PickUpFood(d).hasFood
    ensures s.state == Seated ==>
      s.PickUpFood(d) == s.(hasFood := true, state := SeatedAndEating, eatingTimer := d)
    ensures s.state != Seated ==> s.PickUpFood(d) == s.(hasFood := true)
  {
  }

  lemma UpdateCountsDownOnlyWhileEating(s: Student, dt: real)
    ensures s.state != SeatedAndEating ==> s.Update(dt) == s
    ensures s.state == SeatedAndEating && s.eatingTimer - dt > 0.0 ==>
      s.Update(dt) == s.(eatingTimer := s.eatingTimer - dt)
    ensures s.state == SeatedAndEating && s.eatingTimer - dt <= 0.0 ==>
      s.Update(dt) == Student(Seated, false, s.eatingTimer - dt)
  {
  }

  // ---------------------------------------------------------------- the invariant

  /**
   * Every call keeps `Consistent`; the only calls that enter SeatedAndEating
   * go through the guarded StartEating (so food is in hand), and the only
   * calls that drop the food leave the eating state for Seated.
   */
  lemma EventKeepsConsistent(s: Student, d: real, e: Event)
    requires s.Consistent()
    ensures Apply(s, d, e).Consistent()
    ensures Apply(s, d, e).state == SeatedAndEating && s.state != SeatedAndEating ==>
      e == PickUpFood || (e == StartEating && s.hasFood)
    ensures s.hasFood && !Apply(s, d, e).hasFood ==>
      Apply(s, d, e).state == Seated && (e == FinishEating || e.Frame?)
  {
  }

  lemma {:induction false} RunKeepsConsistent(s: Student, d: real, es: seq<Event>)
    requires s.Consistent()
    ensures Run(s, d, es).Consistent()
    decreases |es|
  {
    if es != [] {
      EventKeepsConsistent(s, d, es[0]);
      RunKeepsConsistent(Apply(s, d, es[0]), d, es[1..]);
    }
  }

  /** From the initial state (Idle), no sequence of calls eats without food. */
  lemma NeverEatsWithoutFood(hasFood: bool, d: real, es: seq<Event>)
    ensures var s := Run(Student(Idle, hasFood, 0.0), d, es);
      s.state == SeatedAndEating ==> s.hasFood
  {
    RunKeepsConsistent(Student(Idle, hasFood, 0.0), d, es);
  }

  // ---------------------------------------------------------------- the countdown

  lemma {:induction false} FramesLeaveNonEatingAlone(s: Student, dts: seq<real>)
    requires s.state != SeatedAndEating
    ensures Frames(s, dts) == s
    decreases |dts|
  {
    if dts != [] {
      FramesLeaveNonEatingAlone(s, dts[1..]);
    }
  }

  /**
   * While eating, frames of positive length count the timer down by the
   * elapsed time; once at least one frame has run and the elapsed time has
   * reached the timer, eating has ended (Seated, no food).
   */
  lemma {:induction false} EatingCountdown(s: Student, dts: seq<real>)
    requires s.state == SeatedAndEating && AllPositive(dts)
    ensures Elapsed(dts) < s.eatingTimer ==>
      Frames(s, dts) == s.(eatingTimer := s.eatingTimer - Elapsed(dts))
    ensures dts != [] && Elapsed(dts) >= s.eatingTimer ==>
      Frames(s, dts).state == Seated && !Frames(s, dts).hasFood
    decreases |dts|
  {
    if dts != [] {
      var next := s.Update(dts[0]);
      assert AllPositive(dts[1..]) by {
        forall i | 0 <= i < |dts[1..]| ensures dts[1..][i] > 0.0 {
          assert dts[1..][i] == dts[i + 1];
        }
      }
      ElapsedNonNegative(dts[1..]);
      if next.state == SeatedAndEating {
        EatingCountdown(next, dts[1..]);
      } else {
        FramesLeaveNonEatingAlone(next, dts[1..]);
      }
    }
  }

  lemma {:induction false} ElapsedNonNegative(dts: seq<real>)
    requires AllPositive(dts)
    ensures Elapsed(dts) >= 0.0
    decreases |dts|
  {
    if dts != [] {
      assert AllPositive(dts[1..]) by {
        forall i | 0 <= i < |dts[1..]| ensures dts[1..][i] > 0.0 {
          assert dts[1..][i] == dts[i + 1];
        }
      }
      ElapsedNonNegative(dts[1..]);
    }
  }

  // ---------------------------------------------------------------- the component

  class StudentController {
    var hasFood: bool
    const eatingDuration: real
    var state: StudentState
    /** Read and cleared by PlayerMovement; no script in the game sets it. */
    var ignoreNextInput: bool
    var eatingTimer: real
    /** The component's `enabled` flag (SitPrompt switches it). */
    var enabled: bool

    function Model(): Student
      reads this
    {
      Student(state, hasFood, eatingTimer)
    }

    ghost predicate Valid()
      reads this
    {
      Model().Consistent()
    }

    /** A new component with the inspector's `hasFood` and `eatingDuration`. */
    constructor (hasFood: bool, eatingDuration: real)
      ensures Valid()
      ensures Model() == Student(Idle, hasFood, 0.0) && this.eatingDuration == eatingDuration
      ensures !ignoreNextInput && enabled
    {
      this.hasFood := hasFood;
      this.eatingDuration := eatingDuration;
      state := Idle;
      ignoreNextInput := false;
      eatingTimer := 0.0;
      enabled := true;
    }

    method Update(dt: real)
      requires Valid() && dt > 0.0
      modifies this`state, this`hasFood, this`eatingTimer
      ensures Valid() && Model() == old(Model()).Update(dt)
    {
      if state == SeatedAndEating {
        eatingTimer := eatingTimer - dt;
        if eatingTimer <= 0.0 {
          FinishEating();
        }
      }
    }

    method PickUpFood()
      requires Valid()
      modifies this`state, this`hasFood, this`eatingTimer
      ensures Valid() && Model() == old(Model()).PickUpFood(eatingDuration)
    {
      hasFood := true;
      if state == Seated {
        StartEating();
      }
    }

    method StartEating()
      requires Valid()
      modifies this`state, this`eatingTimer
      ensures Valid() && Model() == old(Model()).StartEating(eatingDuration)
    {
      if !hasFood {
        return;
      }
      state := SeatedAndEating;
      eatingTimer := eatingDuration;
    }

    method FinishEating()
      modifies this`state, this`hasFood
      ensures Valid() && Model() == old(Model()).FinishEating()
    {
      hasFood := false;
      state := Seated;
    }

    method SitDown()
      requires Valid()
      modifies this`state
      ensures Valid() && Model() == old(Model()).SitDown()
    {
      if state != SeatedAndEating {
        state := Seated;
      }
    }

    method StandUp()
      modifies this`state
      ensures Valid() && Model() == old(Model()).StandUp()
    {
      state := Idle;
    }

    method SetWalkingOnSight()
      requires Valid()
      modifies this`state
      ensures Valid() && Model() == old(Model()).SetWalkingOnSight()
    {
      if state != Seated && state != SeatedAndEating {
        state := WalkingOnSight;
      }
    }

    method SetIdle()
      requires Valid()
      modifies this`state
      ensures Valid() && Model() == old(Model()).SetIdle()
    {
      if state != Seated && state != SeatedAndEating {
        state := Idle;
      }
    }
  }
}
