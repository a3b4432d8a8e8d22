/**
 * The component bundles of the character controller, as values:
 * `MovementBundle` (acceleration, damping, jump impulse, slope limit) and
 * `CharacterControllerBundle`, whose physics components belong to the
 * physics library and are kept abstract as the type parameter `P`.
 */
module Bundles {

  /** The f32 value of PI; slope limits are radians. */
  const Pi: real := 3.1415927410125732421875

  datatype MovementBundle = MovementBundle(
    acceleration: real,
    damping: real,
    jumpImpulse: real,
    maxSlopeAngle: real)

  /**
   * `CharacterControllerBundle`: `physics` stands for the marker, rigid
   * body, collider, ground shape caster and locked axes, all of them owned
   * by the physics library; `movement` is the movement bundle.
   */
  datatype ControllerBundle<P> = ControllerBundle(physics: P, movement: MovementBundle)

  /** `MovementBundle::new`: each argument becomes the component of the same name. */
  function NewMovement(acceleration: real, damping: real, jumpImpulse: real, maxSlopeAngle: real): (b: MovementBundle)
    ensures b.acceleration == acceleration && b.damping == damping
    ensures b.jumpImpulse == jumpImpulse && b.maxSlopeAngle == maxSlopeAngle
  {
    MovementBundle(acceleration, damping, jumpImpulse, maxSlopeAngle)
  }

  /**
   * `MovementBundle::default()`: acceleration 30, damping 0.9, jump impulse 7
   * and a slope limit of 0.45 PI, which is steeper than flat ground and
   * shallower than a wall; the damping factor shrinks horizontal speed.
   */
  function DefaultMovement(): (b: MovementBundle)
    ensures b == NewMovement(30.0, 0.9, 7.0, Pi * 0.45)
    ensures 0.0 < b.maxSlopeAngle < Pi / 2.0
    ensures 0.0 < b.damping < 1.0
  {
    NewMovement(30.0, 0.9, 7.0, Pi * 0.45)
  }

  /** `CharacterControllerBundle::new`: the given physics part with the default movement. */
  function NewController<P>(physics: P): (c: ControllerBundle<P>)
    ensures c.physics == physics && c.movement == DefaultMovement()
  {
    ControllerBundle(physics, DefaultMovement())
  }

  /** `with_movement`: replaces the movement bundle and nothing else. */
  function WithMovement<P>(c: ControllerBundle<P>, acceleration: real, damping: real, jumpImpulse: real, maxSlopeAngle: real): (r: ControllerBundle<P>)
    ensures r.physics == c.physics
    ensures r.movement == NewMovement(acceleration, damping, jumpImpulse, maxSlopeAngle)
  {
    c.(movement := NewMovement(acceleration, damping, jumpImpulse, maxSlopeAngle))
  }

  /** A second `with_movement` overrides the first entirely. */
  lemma WithMovementLastWins<P>(c: ControllerBundle<P>, a1: real, d1: real, j1: real, m1: real, a2: real, d2: real, j2: real, m2: real)
    ensures WithMovement(WithMovement(c, a1, d1, j1, m1), a2, d2, j2, m2) == WithMovement(c, a2, d2, j2, m2)
  {
  }
}
