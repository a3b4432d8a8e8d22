# Lane-slide and character-controller model

A Dafny model of the gameplay logic in `src/player.rs` of an endless-runner prototype built on a game engine and its physics plugin.

- **Lane-slide controller** (`player_movement`). There are three fixed lanes at x = -2.5, 0 and 2.5. A held left or right key retargets the player's `Sliding` record by a threshold rule. Each tick then moves the translation toward the target at `MOVE_SPEED * dt` (speed 5) in the horizontal plane. When the remaining distance is shorter than the step, the translation snaps onto the target and sliding stops.
- **Character-controller template.** `update_grounded` sets the grounded flag from the ground caster's hits. `movement` applies `Move`/`Jump` actions to the linear velocity. `apply_movement_damping` damps the horizontal axes. The bundle constructors `MovementBundle::new`/`default` and `with_movement` are modelled too.

Files:
- `basics.dfy`: `Option`, `Vec2`/`Vec3` over the reals, `Abs` and `Sign`. `Sign` is `normalize_or_zero` on the real line.
- `lanes.dfy`: the lane constants, what each key block chooses (`LeftChoice`, `RightChoice`), the final `target_x` (`LaneTargetX`) and whether `is_sliding` is set (`LaneFires`).
- `slide.dfy`: the tick as specification functions on a `SlideState` value (`Retarget`, `Step`, `TickSpec`, `Coast`). It also holds the class `SlideController`, whose fields are updated in place by `Tick`, and the lemmas about ticks.
- `bundles.dfy`: `MovementBundle` and `ControllerBundle` values with their constructors.
- `controller.dfy`: the grounding predicate, the velocity updates as functions, the class `CharacterBody`, and the lemmas about them.

Numbers are Dafny `real`s, so there is no f32 rounding. `dt` is a parameter that must be non-negative, because the engine's frame time is an unsigned duration. The held keys, the action events and the ground-caster hits are also parameters.

The slide step is projected on the x axis. When a key retargets, the target's y and z are copied from the translation. The step zeroes the y component of the direction. So as long as target and translation agree on z (the invariant `Slide.Planar`, which `SlideController.Valid()` holds), the direction is `(dx, 0, 0)` and `normalize_or_zero` is `Sign(dx)`. The spawn state has translation (0, 4, 0) and target zero, so it satisfies the invariant, and every tick preserves it.

Behaviours of the code the model keeps:
- Snap test. The code snaps only when the distance is strictly less than the step. A step exactly equal to the distance lands on the target's x without clearing `is_sliding` and without copying the target's y (`Slide.ExactLandingKeepsSliding`).
- Both keys held: the right block runs last and its choice wins whenever it makes one.
- Pressing toward an outer wall from an outer lane. `target_x` starts at 0, so this retargets the middle lane rather than staying put.
- `is_sliding` is never read. The step runs on every tick. A "not sliding" record need not sit on its target: for example, right after a press into an outer wall.

## Model

| member | source | states |
|---|---|---|
| `Lanes.LeftChoice` | src/player.rs:279-288 | The left block fires exactly when x is right of the left lane. It then picks the greatest of the left and middle lanes strictly left of x, never the right lane. |
| `Lanes.RightChoice` | src/player.rs:290-299 | The right block fires exactly when x is left of the right lane. It then picks the least of the middle and right lanes strictly right of x, never the left lane. |
| `Lanes.LaneTargetX` | src/player.rs:277-300 | The final `target_x` is always a lane; it differs from the default 0 only when a branch fired; from right of the middle it is never the left lane, and from left of it never the right lane. |
| `Lanes.LaneFires` | src/player.rs:279-299 | `is_sliding` is set exactly when left is held with x > -2.5, or right is held with x < 2.5. |
| `Lanes.TargetIsLane` | src/player.rs:4-6 | Every target x the keys produce is one of the three lanes, including the default 0. |
| `Lanes.LeftKeyOnly` | src/player.rs:276-288 | Left alone targets 0 from x > 0 and -2.5 from -2.5 < x <= 0. At or beyond -2.5 it falls back to 0 without firing. |
| `Lanes.RightKeyOnly` | src/player.rs:276-299 | Right alone targets 0 from x < 0 and 2.5 from 0 <= x < 2.5. At or beyond 2.5 it falls back to 0 without firing. |
| `Lanes.BothKeys` | src/player.rs:277-300 | With both keys held, the right block's choice wins below 2.5. At or beyond 2.5 the left block's 0 stands. A branch always fires. |
| `Lanes.NeverSkipsMiddle` | src/player.rs:279-300 | From right of the middle lane no key combination targets the left lane, and the mirror image holds from the left. |
| `Lanes.FiringTargetIsAdjacent` | src/player.rs:279-299 | Between the outer lanes, a firing press targets a lane different from x with no lane strictly between them. |
| `Slide.SlideController.constructor` | src/player.rs:249-259 | The player spawns at (0, 4, 0), not sliding, with a zero target, and satisfies the planar invariant. |
| `Slide.SlideController.Tick` | src/player.rs:265-322 | One call of `player_movement`: the new state is the key phase followed by the step phase of the old state, and the planar invariant is kept. |
| `Slide.SlideController.ApplyLaneKeys` | src/player.rs:276-300 | The two key blocks with their shared running `target_x`. They give the declarative retarget: the right block's choice, else the left block's, else 0, with y and z from the translation. |
| `Slide.SlideController.SlideStep` | src/player.rs:311-320 | The step phase: snap onto the target and stop sliding when the distance is below the step, else move x by `Sign(dx) * 5 * dt`. |
| `Slide.Retarget` | src/player.rs:276-300 | A lane key changes only the target: its x becomes a lane and its y and z come from the translation. `is_sliding` becomes true exactly when a branch fires, else it is unchanged. With no key the record is untouched. |
| `Slide.Step` | src/player.rs:311-320 | The step never changes the target and never starts a slide; clearing `is_sliding` puts the translation on the target; otherwise y and z stay; for dt >= 0 the new x lies between the old x and the target's x. |
| `Slide.TickSpec` | src/player.rs:276-320 | A tick keeps the keys' target (a lane when a key is held) and the planar invariant, and for dt >= 0 moves x from where it was toward that target without passing it. |
| `Slide.StepSnaps` | src/player.rs:314-317 | A non-zero distance below `5 * dt` puts the translation exactly on the target and clears `is_sliding`. |
| `Slide.StepAdvances` | src/player.rs:313-319 | Otherwise x moves by exactly `5 * dt` toward the target; y, z, the target and `is_sliding` are unchanged. At zero distance nothing changes. |
| `Slide.StepNeverOvershoots` | src/player.rs:311-320 | The new x lies between the old x and the target's x. The distance left is `max(0, distance - 5 * dt)`. |
| `Slide.ExactLandingKeepsSliding` | src/player.rs:314-319 | A step exactly equal to the distance lands on the target's x but keeps `is_sliding` and the old y. Later steps at zero distance change nothing. |
| `Slide.IdleIsFixed` | src/player.rs:311-320 | At rest on the target with no key held, a tick leaves the state unchanged. |
| `Slide.HeldKeyStopsAtMiddle` | src/player.rs:279-320 | Holding left from right of the middle targets the middle and the tick never carries x past it; mirrored for right. |
| `Slide.CoastReachesTarget` | src/player.rs:311-320 | With no key held and dt > 0, any n ticks whose total travel `n * 5 * dt` exceeds the distance bring x onto the target's x. The target is unchanged. |
| `Slide.CoastAtRest` | src/player.rs:311-319 | At zero distance, any number of keyless ticks change nothing. |
| `Slide.ScenarioRightFromMiddle` | src/player.rs:290-320 | From the middle lane at rest, right held for 0.1 s: the target becomes the right lane, x becomes 0.5, and the player is still sliding. |
| `Slide.ScenarioSnap` | src/player.rs:311-317 | From x = 2.4 with target 2.5 and dt = 1 s, the player snaps to 2.5 and stops sliding. |
| `Bundles.NewMovement` | src/player.rs:85-97 | Each argument of `MovementBundle::new` becomes the component of the same name. |
| `Bundles.DefaultMovement` | src/player.rs:100-104 | The default is `new(30, 0.9, 7, 0.45 PI)`. Its slope limit lies strictly between flat and vertical, and its damping factor lies strictly between 0 and 1. |
| `Bundles.NewController` | src/player.rs:107-126 | `CharacterControllerBundle::new` keeps the given physics part and uses the default movement bundle. |
| `Bundles.WithMovement` | src/player.rs:128-137 | `with_movement` replaces the movement bundle with `new(...)` of its arguments and keeps everything else. |
| `Bundles.WithMovementLastWins` | src/player.rs:128-137 | A second `with_movement` overrides the first entirely. |
| `Controller.AnySupportsIff` | src/player.rs:151-157 | The short-circuit scan of the hits is true exactly when some hit supports the character. |
| `Controller.NoSlopeLimitGroundedIffHit` | src/player.rs:152-156 | Without a slope limit every hit counts, so the character is grounded exactly when there is at least one hit. |
| `Controller.GroundedMonotone` | src/player.rs:151-157 | Adding hits never ungrounds the character, and neither does raising the slope limit. |
| `Controller.Supports` | src/player.rs:151-157 | Without a slope limit every hit supports; with limit `m`, a hit supports exactly when its tilt lies in [-m, m]. |
| `Controller.AnySupports` | src/player.rs:151-157 | No hits means not grounded; a supporting first hit means grounded; without a slope limit, grounded exactly when there is a hit. |
| `Controller.CharacterBody.UpdateGrounded` | src/player.rs:141-165 | The `Grounded` marker is present afterwards exactly when some hit has `abs(tilt) <= limit`, or any hit exists when there is no limit. |
| `Controller.ActionEffect` | src/player.rs:186-195 | `Move(d)` adds `d.x * a * dt` to vx and subtracts `d.y * a * dt` from vz, leaving vy alone. `Jump` sets vy to the impulse only when grounded and never touches vx or vz. |
| `Controller.ApplyAction` | src/player.rs:186-195 | A `Move` never changes vy, a `Jump` never changes vx or vz, and vy changes only to the impulse, on a `Jump` while grounded. |
| `Controller.ApplyActions` | src/player.rs:182-198 | A frame of events applied in order: an airborne body keeps its vy, and a frame of jumps alone keeps vx and vz. |
| `Controller.ActionsHorizontal` | src/player.rs:182-198 | After a frame's events, vx has moved by the sum of the `Move` x components times `a * dt`, and vz has moved down by the sum of the y components times `a * dt`. |
| `Controller.ActionsVertical` | src/player.rs:191-195 | After a frame's events, vy is the jump impulse if the character is grounded and some event is a `Jump`, else unchanged. |
| `Controller.ActionsOrderIrrelevant` | src/player.rs:182-198 | Reading two groups of events in either order gives the same velocity. |
| `Controller.CharacterBody.Movement` | src/player.rs:168-199 | The loop over the frame's events leaves the velocity equal to the events applied in order. vy ends as the impulse if grounded with a `Jump` among the events, else unchanged. |
| `Controller.DampingSlows` | src/player.rs:202-208 | Damping leaves vy alone. With a factor in [0, 1] it never increases the magnitude of vx or vz. |
| `Controller.Damped` | src/player.rs:205-206 | Damping never changes vy; factor 1 changes nothing; factor 0 stops horizontal motion. |
| `Controller.CharacterBody.ApplyDamping` | src/player.rs:202-208 | vx and vz are multiplied by the damping factor; vy is unchanged. |
| `Controller.CharacterBody.constructor` | src/player.rs:63-82 | An entity carrying a movement bundle starts with those components, including its slope limit, at zero velocity and not grounded. |

## Left out

- Engine wiring is not modelled: plugins, system registration and chaining, ECS queries, `Commands`, the event reader, `Res<Time>`, asset and mesh spawning, lights, the floor and the camera. The frame time, held keys, action events and hits are parameters instead. `player_movement` is modelled as written, whether or not the running app registers it.
- Each query loop is modelled for one entity: a `SlideController` or a `CharacterBody`. The player entities do not affect one another; the only other entity `player_movement` reads is the camera, whose transform it never uses.
- Camera lookup is left out. Its `unwrap` panics unless exactly one camera exists, but the value is never used.
- Logging and side inputs are left out: the `println!` calls, the Escape key's `AppExit`, and the Jump/Roll key branches of `player_movement`, which only log.
- The physics library is abstract. The collider, shape caster and its `set_scale`, rigid body, locked axes, friction, restitution, gravity and collision response are a foreign library. They are the type parameter `P` of `ControllerBundle`.
- Physics moving the transform is not modelled. The model assumes only `player_movement` moves the translation. A z displacement by physics between ticks would make the real step diagonal and needs a square root; the model does not cover that.
- Floating point is not modelled. Arithmetic is exact on reals, and `Bundles.Pi` is the f32 value of PI.
- Trigonometry is a parameter. The slope angle `(rotation * -normal).angle_between(Y)` is the function `tilt`, and `to_radians` is not used.
- `Controller.CharacterBody.Movement`: its ensures does not restate the horizontal closed form. That form is proved for the same function in `Controller.ActionsHorizontal`.
