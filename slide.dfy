/**
 * The per-tick lane-slide controller of `player_movement`: the key blocks
 * retarget the `Sliding` record, then the translation steps toward the
 * target in the horizontal plane at `MoveSpeed * dt`, snapping onto it when
 * the remaining distance is shorter than the step.
 *
 * The target's y and z are copied from the translation whenever a key
 * retargets, and the step zeroes the vertical component of the direction, so
 * while the target and the translation agree on z (the invariant `Planar`)
 * the slide runs along the x axis alone and `normalize_or_zero` is `Sign`.
 */
module Slide {
  import opened Basics
  import opened Lanes

  /** The player's translation together with its `Sliding { is_sliding, target }` record. */
  datatype SlideState = SlideState(translation: Vec3, target: Vec3, isSliding: bool)

  /** The target and the translation lie in the same x-y plane, so the slide is along x. */
  predicate Planar(s: SlideState)
  {
    s.target.z == s.translation.z
  }

  /** Signed horizontal distance still to cover. */
  function Remaining(s: SlideState): real
  {
    s.target.x - s.translation.x
  }

  /**
   * The key phase of a tick: a held lane key changes only the target, and
   * only its x: the new x is a lane, y and z come from the translation;
   * `is_sliding` becomes true when a threshold branch fires and is otherwise
   * left as it was. With no lane key the record is untouched.
   */
  function Retarget(s: SlideState, left: bool, right: bool): (r: SlideState)
    ensures r.translation == s.translation
    ensures left || right ==>
      r.target.x in LaneSet && r.target.y == s.translation.y && r.target.z == s.translation.z
    ensures !(left || right) ==> r == s
    ensures r.isSliding <==> s.isSliding || (left && s.translation.x > LeftLane) || (right && s.translation.x < RightLane)
    ensures Planar(s) ==> Planar(r)
  {
    if left || right then
      s.(target := Vec3(LaneTargetX(s.translation.x, left, right), s.translation.y, s.translation.z),
         isSliding := s.isSliding || LaneFires(s.translation.x, left, right))
    else s
  }

  /**
   * The movement phase of a tick, on the x axis. It never changes the target
   * and never starts a slide; the translation keeps its y and z unless it
   * snaps onto the target; for a forward tick the new x lies between the old
   * x and the target's x.
   */
  function Step(s: SlideState, dt: real): (r: SlideState)
    ensures r.target == s.target
    ensures r.isSliding ==> s.isSliding
    ensures !r.isSliding && s.isSliding ==> r.translation == s.target
    ensures r.translation == s.target ||
            (r.translation.y == s.translation.y && r.translation.z == s.translation.z)
    ensures Planar(s) ==> Planar(r)
    ensures dt >= 0.0 ==>
      Min(s.translation.x, s.target.x) <= r.translation.x <= Max(s.translation.x, s.target.x)
  {
    var move := Sign(Remaining(s)) * MoveSpeed * dt;
    if Abs(Remaining(s)) < Abs(move) then
      s.(translation := s.target, isSliding := false)
    else
      s.(translation := s.translation.(x := s.translation.x + move))
  }

  /**
   * One whole call of `player_movement` for one player: the target the keys
   * chose (or the old one) is kept, the planar invariant is kept, and x moves
   * from where it was toward that target without passing it.
   */
  function TickSpec(s: SlideState, left: bool, right: bool, dt: real): (r: SlideState)
    ensures r.target == Retarget(s, left, right).target
    ensures left || right ==> r.target.x in LaneSet
    ensures Planar(s) ==> Planar(r)
    ensures dt >= 0.0 ==>
      Min(s.translation.x, r.target.x) <= r.translation.x <= Max(s.translation.x, r.target.x)
  {
    Step(Retarget(s, left, right), dt)
  }

  /** `n` ticks with no key held. */
  function Coast(s: SlideState, dt: real, n: nat): SlideState
    decreases n
  {
    if n == 0 then s else Coast(TickSpec(s, false, false, dt), dt, n - 1)
  }

  /** The player entity's `Transform` translation and `Sliding` component, updated in place. */
  class SlideController {
    var translation: Vec3
    var target: Vec3
    var isSliding: bool

    function State(): SlideState
      reads this
    {
      SlideState(translation, target, isSliding)
    }

    predicate Valid()
      reads this
    {
      Planar(State())
    }

    /** Spawned at (0, 4, 0), not sliding, with a zero target. */
    constructor ()
      ensures Valid()
      ensures translation == Vec3(0.0, 4.0, 0.0) && target == Zero && !isSliding
    {
      translation := Vec3(0.0, 4.0, 0.0);
      target := Zero;
      isSliding := false;
    }

    /** One call of `player_movement` with the lane keys held as given and `dt` seconds elapsed. */
    method Tick(left: bool, right: bool, dt: real)
      requires Valid() && dt >= 0.0
      modifies this
      ensures Valid()
      ensures State() == TickSpec(old(State()), left, right, dt)
    {
      ApplyLaneKeys(left, right);
      SlideStep(dt);
    }

    /** The two key blocks of `player_movement`, sharing the running `target_x`. */
    method ApplyLaneKeys(left: bool, right: bool)
      requires Valid()
      modifies this
      ensures Valid()
      ensures State() == Retarget(old(State()), left, right)
    {
      var currentX := translation.x;
      var targetX := DefaultTargetX;
      if left {
        if currentX > MiddleLane {
          targetX := MiddleLane;
          isSliding := true;
        } else if currentX > LeftLane {
          targetX := LeftLane;
          isSliding := true;
        }
        target := Vec3(targetX, translation.y, translation.z);
      }
      if right {
        if currentX < MiddleLane {
          targetX := MiddleLane;
          isSliding := true;
        } else if currentX < RightLane {
          targetX := RightLane;
          isSliding := true;
        }
        target := Vec3(targetX, translation.y, translation.z);
      }
    }

    /** The movement part of `player_movement`: step toward the target, or snap onto it. */
    method SlideStep(dt: real)
      requires Valid() && dt >= 0.0
      modifies this
      ensures Valid()
      ensures State() == Step(old(State()), dt)
    {
      // direction = target - translation with y zeroed; its z is zero by Valid()
      var direction := target.x - translation.x;
      var movement := Sign(direction) * MoveSpeed * dt;
      if Abs(direction) < Abs(movement) {
        translation := target;
        isSliding := false;
      } else {
        translation := translation.(x := translation.x + movement);
      }
    }
  }

  /**
   * Snap: when the distance is non-zero and shorter than the step, the
   * translation becomes exactly the target and sliding stops.
   */
  lemma StepSnaps(s: SlideState, dt: real)
    requires Planar(s) && dt >= 0.0
    requires 0.0 < Abs(Remaining(s)) < MoveSpeed * dt
    ensures Step(s, dt).translation == s.target
    ensures !Step(s, dt).isSliding
  {
  }

  /**
   * Ordinary step: otherwise x advances by exactly `MoveSpeed * dt` toward
   * the target, y and z stay, and neither the target nor `is_sliding` changes.
   * A zero distance is the degenerate case: nothing moves and `is_sliding`
   * is not cleared.
   */
  lemma StepAdvances(s: SlideState, dt: real)
    requires Planar(s) && dt >= 0.0
    requires !(0.0 < Abs(Remaining(s)) < MoveSpeed * dt)
    ensures var r := Step(s, dt);
      && r.translation.x == s.translation.x + Sign(Remaining(s)) * MoveSpeed * dt
      && r.translation.y == s.translation.y && r.translation.z == s.translation.z
      && r.target == s.target && r.isSliding == s.isSliding
    ensures Remaining(s) == 0.0 ==> Step(s, dt) == s
  {
  }

  /**
   * The step never overshoots: the new x lies between the old x and the
   * target's x, and the distance left is the old distance less one step,
   * or zero.
   */
  lemma StepNeverOvershoots(s: SlideState, dt: real)
    requires Planar(s) && dt >= 0.0
    ensures var r := Step(s, dt);
      && Min(s.translation.x, s.target.x) <= r.translation.x <= Max(s.translation.x, s.target.x)
      && Abs(Remaining(r)) == Max(0.0, Abs(Remaining(s)) - MoveSpeed * dt)
  {
    var d := Remaining(s);
    if d > 0.0 {
      assert Sign(d) == 1.0;
    } else if d < 0.0 {
      assert Sign(d) == -1.0;
    }
  }

  /**
   * The strict `<` of the snap test: landing exactly on the target's x with a
   * step of exactly the remaining distance does not clear `is_sliding` and
   * does not copy the target's y, and the following ticks at zero distance
   * never clear it either.
   */
  lemma ExactLandingKeepsSliding(s: SlideState, dt: real)
    requires Planar(s) && dt > 0.0
    requires Abs(Remaining(s)) == MoveSpeed * dt
    ensures Step(s, dt).translation.x == s.target.x
    ensures Step(s, dt).isSliding == s.isSliding
    ensures Step(s, dt).translation.y == s.translation.y
    ensures Step(Step(s, dt), dt) == Step(s, dt)
  {
    var d := Remaining(s);
    if d > 0.0 {
      assert Sign(d) == 1.0;
    } else {
      assert Sign(d) == -1.0;
    }
  }

  /** Once at rest on its target, a tick with no lane key changes nothing. */
  lemma IdleIsFixed(s: SlideState, dt: real)
    requires s.translation == s.target
    ensures TickSpec(s, false, false, dt) == s
  {
  }

  /**
   * Holding the left key from right of the middle lane targets the middle
   * lane and the tick never carries the player past it; mirrored for the
   * right key.
   */
  lemma HeldKeyStopsAtMiddle(s: SlideState, dt: real)
    requires Planar(s) && dt >= 0.0
    ensures s.translation.x > MiddleLane ==>
      TickSpec(s, true, false, dt).target.x == MiddleLane &&
      TickSpec(s, true, false, dt).translation.x >= MiddleLane
    ensures s.translation.x < MiddleLane ==>
      TickSpec(s, false, true, dt).target.x == MiddleLane &&
      TickSpec(s, false, true, dt).translation.x <= MiddleLane
  {
    StepNeverOvershoots(Retarget(s, true, false), dt);
    StepNeverOvershoots(Retarget(s, false, true), dt);
  }

  /**
   * With no key held and a positive tick length, the slide reaches the
   * target's x within any number of ticks whose total travel exceeds the
   * distance, and stays there.
   */
  lemma {:induction false} CoastReachesTarget(s: SlideState, dt: real, n: nat)
    requires Planar(s) && dt > 0.0
    requires Abs(Remaining(s)) < (n as real) * MoveSpeed * dt
    ensures Coast(s, dt, n).translation.x == s.target.x
    ensures Coast(s, dt, n).target == s.target
    decreases n
  {
    var t := TickSpec(s, false, false, dt);
    assert t == Step(s, dt);
    StepNeverOvershoots(s, dt);
    if Remaining(s) == 0.0 {
      StepAdvances(s, dt);
      CoastAtRest(s, dt, n);
    } else if Abs(Remaining(s)) < MoveSpeed * dt {
      StepSnaps(s, dt);
      CoastAtRest(t, dt, n - 1);
    } else {
      assert n > 1;
      assert Abs(Remaining(t)) == Abs(Remaining(s)) - MoveSpeed * dt;
      assert Abs(Remaining(t)) < ((n - 1) as real) * MoveSpeed * dt;
      CoastReachesTarget(t, dt, n - 1);
    }
  }

  /** At zero distance, coasting changes nothing. */
  lemma {:induction false} CoastAtRest(s: SlideState, dt: real, n: nat)
    requires Planar(s) && Remaining(s) == 0.0
    ensures Coast(s, dt, n) == s
  {
    if n > 0 {
      assert TickSpec(s, false, false, dt) == s;
      CoastAtRest(s, dt, n - 1);
    }
  }

  /**
   * Starting in the middle lane with the right key held for a tick of 0.1 s,
   * the target becomes the right lane and the player slides 0.5 toward it,
   * still sliding.
   */
  lemma ScenarioRightFromMiddle(y: real, z: real)
    ensures var r := TickSpec(SlideState(Vec3(0.0, y, z), Vec3(0.0, y, z), false), false, true, 0.1);
      r.target == Vec3(RightLane, y, z) && r.translation == Vec3(0.5, y, z) && r.isSliding
  {
  }

  /** From 2.4 with a target of 2.5 and a tick of 1 s, the player snaps onto 2.5 and stops sliding. */
  lemma ScenarioSnap(y: real, z: real)
    ensures var r := TickSpec(SlideState(Vec3(2.4, y, z), Vec3(2.5, y, z), true), false, false, 1.0);
      r.translation == Vec3(2.5, y, z) && !r.isSliding
  {
  }
}
