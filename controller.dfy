/**
 * The character-controller systems: `update_grounded` (the grounded flag
 * from the ground shape caster's hits), `movement` (input actions change the
 * linear velocity) and `apply_movement_damping` (horizontal damping).
 *
 * The slope test `|(rotation * -normal).angle_between(Y)|` is trigonometry on
 * the physics library's rotation; it enters as the function `tilt`, which
 * gives, for a hit normal, the angle between the rotated, negated normal and
 * the up axis.
 */
module Controller {
  import opened Basics
  import opened Bundles

  /** An input action event. */
  datatype MovementAction = Move(direction: Vec2) | Jump

  /** A hit of the ground shape caster, by its normal. */
  datatype Hit = Hit(normal: Vec3)

  /** Whether one hit holds the character up: any hit without a slope limit, else a shallow enough one. */
  predicate Supports(hit: Hit, maxSlopeAngle: Option<real>, tilt: Vec3 -> real): (ok: bool)
    ensures maxSlopeAngle.None? ==> ok
    ensures maxSlopeAngle.Some? ==>
      (ok <==> -maxSlopeAngle.value <= tilt(hit.normal) <= maxSlopeAngle.value)
  {
    match maxSlopeAngle
    case None => true
    case Some(angle) => Abs(tilt(hit.normal)) <= angle
  }

  /** `hits.iter().any(...)`: scans the hits in order and stops at the first that supports. */
  function AnySupports(hits: seq<Hit>, maxSlopeAngle: Option<real>, tilt: Vec3 -> real): (grounded: bool)
    ensures grounded ==> hits != []
    ensures hits != [] && Supports(hits[0], maxSlopeAngle, tilt) ==> grounded
    ensures maxSlopeAngle.None? ==> (grounded <==> hits != [])
  {
    if hits == [] then false
    else Supports(hits[0], maxSlopeAngle, tilt) || AnySupports(hits[1..], maxSlopeAngle, tilt)
  }

  /** Grounded exactly when some hit supports. */
  lemma {:induction false} AnySupportsIff(hits: seq<Hit>, maxSlopeAngle: Option<real>, tilt: Vec3 -> real)
    ensures AnySupports(hits, maxSlopeAngle, tilt) <==>
            exists i :: 0 <= i < |hits| && Supports(hits[i], maxSlopeAngle, tilt)
  {
    if hits != [] {
      AnySupportsIff(hits[1..], maxSlopeAngle, tilt);
      if AnySupports(hits[1..], maxSlopeAngle, tilt) {
        var k :| 0 <= k < |hits| - 1 && Supports(hits[1..][k], maxSlopeAngle, tilt);
        assert Supports(hits[k + 1], maxSlopeAngle, tilt);
      }
      if exists i :: 0 <= i < |hits| && Supports(hits[i], maxSlopeAngle, tilt) {
        var i :| 0 <= i < |hits| && Supports(hits[i], maxSlopeAngle, tilt);
        if i > 0 {
          assert Supports(hits[1..][i - 1], maxSlopeAngle, tilt);
        }
      }
    }
  }

  /** Without a slope limit every hit counts: grounded exactly when there is a hit. */
  lemma NoSlopeLimitGroundedIffHit(hits: seq<Hit>, tilt: Vec3 -> real)
    ensures AnySupports(hits, None, tilt) <==> |hits| > 0
  {
    AnySupportsIff(hits, None, tilt);
    if |hits| > 0 {
      assert Supports(hits[0], None, tilt);
    }
  }

  /** More hits never unground, and a looser slope limit never ungrounds. */
  lemma GroundedMonotone(hits: seq<Hit>, more: seq<Hit>, a: real, b: real, tilt: Vec3 -> real)
    requires a <= b
    ensures AnySupports(hits, Some(a), tilt) ==> AnySupports(hits + more, Some(a), tilt)
    ensures AnySupports(more, Some(a), tilt) ==> AnySupports(hits + more, Some(a), tilt)
    ensures AnySupports(hits, Some(a), tilt) ==> AnySupports(hits, Some(b), tilt)
  {
    AnySupportsIff(hits, Some(a), tilt);
    AnySupportsIff(more, Some(a), tilt);
    AnySupportsIff(hits + more, Some(a), tilt);
    AnySupportsIff(hits, Some(b), tilt);
    if AnySupports(hits, Some(a), tilt) {
      var i :| 0 <= i < |hits| && Supports(hits[i], Some(a), tilt);
      assert (hits + more)[i] == hits[i];
      assert Supports(hits[i], Some(b), tilt);
    }
    if AnySupports(more, Some(a), tilt) {
      var i :| 0 <= i < |more| && Supports(more[i], Some(a), tilt);
      assert (hits + more)[|hits| + i] == more[i];
    }
  }

  /**
   * The effect of one action on a velocity: a `Move` never touches vy, a
   * `Jump` never touches vx or vz, and vy changes only to the jump impulse.
   */
  function ApplyAction(v: Vec3, action: MovementAction, acceleration: real, jumpImpulse: real, grounded: bool, dt: real): (r: Vec3)
    ensures action.Move? ==> r.y == v.y
    ensures action.Jump? ==> r.x == v.x && r.z == v.z
    ensures r.y == v.y || (action.Jump? && grounded && r.y == jumpImpulse)
  {
    match action
    case Move(d) => v.(x := v.x + d.x * acceleration * dt, z := v.z - d.y * acceleration * dt)
    case Jump => if grounded then v.(y := jumpImpulse) else v
  }

  /**
   * The actions applied in order. An airborne body keeps its vy; a batch
   * of jumps alone keeps vx and vz.
   */
  function ApplyActions(v: Vec3, actions: seq<MovementAction>, acceleration: real, jumpImpulse: real, grounded: bool, dt: real): (r: Vec3)
    ensures !grounded ==> r.y == v.y
    ensures (forall i :: 0 <= i < |actions| ==> actions[i].Jump?) ==> r.x == v.x && r.z == v.z
    decreases |actions|
  {
    if actions == [] then v
    else ApplyAction(ApplyActions(v, actions[..|actions| - 1], acceleration, jumpImpulse, grounded, dt),
                     actions[|actions| - 1], acceleration, jumpImpulse, grounded, dt)
  }

  /** Sum of the x components of the `Move` directions. */
  function SumX(actions: seq<MovementAction>): real
    decreases |actions|
  {
    if actions == [] then 0.0
    else SumX(actions[..|actions| - 1]) + (match actions[|actions| - 1] case Move(d) => d.x case Jump => 0.0)
  }

  /** Sum of the y components of the `Move` directions. */
  function SumY(actions: seq<MovementAction>): real
    decreases |actions|
  {
    if actions == [] then 0.0
    else SumY(actions[..|actions| - 1]) + (match actions[|actions| - 1] case Move(d) => d.y case Jump => 0.0)
  }

  /**
   * One action: `Move(d)` adds `d.x * a * dt` to vx and subtracts
   * `d.y * a * dt` from vz, leaving vy alone; `Jump` sets vy to the impulse
   * when grounded and otherwise changes nothing.
   */
  lemma ActionEffect(v: Vec3, action: MovementAction, a: real, j: real, grounded: bool, dt: real)
    ensures var r := ApplyAction(v, action, a, j, grounded, dt);
      match action
      case Move(d) => r.x - v.x == d.x * a * dt && v.z - r.z == d.y * a * dt && r.y == v.y
      case Jump => r.x == v.x && r.z == v.z && r.y == (if grounded then j else v.y)
  {
  }

  /**
   * A batch of actions, horizontally: the velocity moves by the summed
   * `Move` directions scaled by `a * dt`, whatever the order.
   */
  lemma ActionsHorizontal(v: Vec3, actions: seq<MovementAction>, a: real, j: real, grounded: bool, dt: real)
    ensures var r := ApplyActions(v, actions, a, j, grounded, dt);
      && r.x == v.x + SumX(actions) * a * dt
      && r.z == v.z - SumY(actions) * a * dt
  {
    ActionsByIncrements(v, actions, a, j, grounded, dt);
    IncrementXIsScaledSum(actions, a, dt);
    IncrementZIsScaledSum(actions, a, dt);
  }

  /** Change of vx per `Move` action. */
  function StepX(action: MovementAction, a: real, dt: real): real
  {
    match action
    case Move(d) => d.x * a * dt
    case Jump => 0.0
  }

  /** Decrease of vz per `Move` action. */
  function StepZ(action: MovementAction, a: real, dt: real): real
  {
    match action
    case Move(d) => d.y * a * dt
    case Jump => 0.0
  }

  /** Sum of the per-event changes of vx. */
  function IncrementX(actions: seq<MovementAction>, a: real, dt: real): real
    decreases |actions|
  {
    if actions == [] then 0.0
    else IncrementX(actions[..|actions| - 1], a, dt) + StepX(actions[|actions| - 1], a, dt)
  }

  /** Sum of the per-event decreases of vz. */
  function IncrementZ(actions: seq<MovementAction>, a: real, dt: real): real
    decreases |actions|
  {
    if actions == [] then 0.0
    else IncrementZ(actions[..|actions| - 1], a, dt) + StepZ(actions[|actions| - 1], a, dt)
  }

  lemma {:induction false} ActionsByIncrements(v: Vec3, actions: seq<MovementAction>, a: real, j: real, grounded: bool, dt: real)
    ensures var r := ApplyActions(v, actions, a, j, grounded, dt);
      r.x == v.x + IncrementX(actions, a, dt) && r.z == v.z - IncrementZ(actions, a, dt)
    decreases |actions|
  {
    if actions != [] {
      ActionsByIncrements(v, actions[..|actions| - 1], a, j, grounded, dt);
    }
  }

  lemma {:induction false} IncrementXIsScaledSum(actions: seq<MovementAction>, a: real, dt: real)
    ensures IncrementX(actions, a, dt) == SumX(actions) * a * dt
    decreases |actions|
  {
    if actions != [] {
      var init, last := actions[..|actions| - 1], actions[|actions| - 1];
      IncrementXIsScaledSum(init, a, dt);
      var dx := match last case Move(d) => d.x case Jump => 0.0;
      assert StepX(last, a, dt) == dx * a * dt;
      Distributes(SumX(init), dx, a, dt);
    }
  }

  lemma {:induction false} IncrementZIsScaledSum(actions: seq<MovementAction>, a: real, dt: real)
    ensures IncrementZ(actions, a, dt) == SumY(actions) * a * dt
    decreases |actions|
  {
    if actions != [] {
      var init, last := actions[..|actions| - 1], actions[|actions| - 1];
      IncrementZIsScaledSum(init, a, dt);
      var dy := match last case Move(d) => d.y case Jump => 0.0;
      assert StepZ(last, a, dt) == dy * a * dt;
      Distributes(SumY(init), dy, a, dt);
    }
  }

  /**
   * A batch of actions, vertically: vy ends as the jump impulse exactly when
   * the body is grounded and some action is a `Jump`; otherwise it is unchanged.
   */
  lemma {:induction false} ActionsVertical(v: Vec3, actions: seq<MovementAction>, a: real, j: real, grounded: bool, dt: real)
    ensures ApplyActions(v, actions, a, j, grounded, dt).y == if grounded && Jump in actions then j else v.y
    decreases |actions|
  {
    if actions != [] {
      var init, last := actions[..|actions| - 1], actions[|actions| - 1];
      ActionsVertical(v, init, a, j, grounded, dt);
      assert actions == init + [last];
    }
  }

  lemma Distributes(s: real, d: real, a: real, dt: real)
    ensures (s + d) * a * dt == s * a * dt + d * a * dt
  {
  }

  lemma {:induction false} IncrementsConcat(p: seq<MovementAction>, q: seq<MovementAction>, a: real, dt: real)
    ensures IncrementX(p + q, a, dt) == IncrementX(p, a, dt) + IncrementX(q, a, dt)
    ensures IncrementZ(p + q, a, dt) == IncrementZ(p, a, dt) + IncrementZ(q, a, dt)
    decreases |q|
  {
    if q == [] {
      assert p + q == p;
    } else {
      var q' := q[..|q| - 1];
      assert (p + q)[..|p + q| - 1] == p + q';
      assert (p + q)[|p + q| - 1] == q[|q| - 1];
      IncrementsConcat(p, q', a, dt);
    }
  }

  /** The order in which the events of a frame are read does not change the resulting velocity. */
  lemma ActionsOrderIrrelevant(v: Vec3, p: seq<MovementAction>, q: seq<MovementAction>, a: real, j: real, grounded: bool, dt: real)
    ensures ApplyActions(v, p + q, a, j, grounded, dt) == ApplyActions(v, q + p, a, j, grounded, dt)
  {
    ActionsByIncrements(v, p + q, a, j, grounded, dt);
    ActionsByIncrements(v, q + p, a, j, grounded, dt);
    ActionsVertical(v, p + q, a, j, grounded, dt);
    ActionsVertical(v, q + p, a, j, grounded, dt);
    IncrementsConcat(p, q, a, dt);
    IncrementsConcat(q, p, a, dt);
    assert Jump in p + q <==> Jump in q + p;
  }

  /** `apply_movement_damping` on one velocity: the horizontal axes scale by `factor`. */
  function Damped(v: Vec3, factor: real): (r: Vec3)
    ensures r.y == v.y
    ensures factor == 1.0 ==> r == v
    ensures factor == 0.0 ==> r.x == 0.0 && r.z == 0.0
  {
    v.(x := v.x * factor, z := v.z * factor)
  }

  /**
   * Damping leaves vy alone, and with a factor in [0, 1] (as the default 0.9)
   * it never speeds the horizontal motion up.
   */
  lemma DampingSlows(v: Vec3, factor: real)
    requires 0.0 <= factor <= 1.0
    ensures Damped(v, factor).y == v.y
    ensures Abs(Damped(v, factor).x) <= Abs(v.x)
    ensures Abs(Damped(v, factor).z) <= Abs(v.z)
  {
    ScaleShrinks(v.x, factor);
    ScaleShrinks(v.z, factor);
  }

  lemma ScaleShrinks(x: real, factor: real)
    requires 0.0 <= factor <= 1.0
    ensures Abs(x * factor) <= Abs(x)
  {
    if x < 0.0 {
      assert x * factor == -((-x) * factor);
      assert (-x) * factor <= -x;
    } else {
      assert x * factor <= x;
    }
  }

  /** The components of one character-controller entity that its systems update in place. */
  class CharacterBody {
    var acceleration: real
    var damping: real
    var jumpImpulse: real
    var maxSlopeAngle: Option<real>
    var velocity: Vec3
    var grounded: bool

    /** An entity spawned with a movement bundle, at rest and not yet grounded. */
    constructor (movement: MovementBundle)
      ensures acceleration == movement.acceleration && damping == movement.damping
      ensures jumpImpulse == movement.jumpImpulse && maxSlopeAngle == Some(movement.maxSlopeAngle)
      ensures velocity == Zero && !grounded
    {
      acceleration := movement.acceleration;
      damping := movement.damping;
      jumpImpulse := movement.jumpImpulse;
      maxSlopeAngle := Some(movement.maxSlopeAngle);
      velocity := Zero;
      grounded := false;
    }

    /** `update_grounded`: inserts or removes the `Grounded` marker. */
    method UpdateGrounded(hits: seq<Hit>, tilt: Vec3 -> real)
      modifies this`grounded
      ensures grounded <==> exists i :: 0 <= i < |hits| && Supports(hits[i], maxSlopeAngle, tilt)
    {
      AnySupportsIff(hits, maxSlopeAngle, tilt);
      grounded := AnySupports(hits, maxSlopeAngle, tilt);
    }

    /** `movement`: reads this frame's action events in order and updates the velocity. */
    method Movement(events: seq<MovementAction>, dt: real)
      modifies this`velocity
      ensures velocity == ApplyActions(old(velocity), events, acceleration, jumpImpulse, grounded, dt)
      ensures velocity.y == if grounded && Jump in events then jumpImpulse else old(velocity).y
    {
      for i := 0 to |events|
        invariant velocity == ApplyActions(old(velocity), events[..i], acceleration, jumpImpulse, grounded, dt)
      {
        match events[i] {
          case Move(d) =>
            velocity := velocity.(x := velocity.x + d.x * acceleration * dt);
            velocity := velocity.(z := velocity.z - d.y * acceleration * dt);
          case Jump =>
            if grounded {
              velocity := velocity.(y := jumpImpulse);
            }
        }
        assert events[..i + 1][..i] == events[..i];
      }
      assert events[..|events|] == events;
      ActionsVertical(old(velocity), events, acceleration, jumpImpulse, grounded, dt);
    }

    /** `apply_movement_damping`: scales vx and vz by the damping factor. */
    method ApplyDamping()
      modifies this`velocity
      ensures velocity == Damped(old(velocity), damping)
    {
      velocity := velocity.(x := velocity.x * damping);
      velocity := velocity.(z := velocity.z * damping);
    }
  }
}
