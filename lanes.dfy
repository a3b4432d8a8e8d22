/**
 * The lane table and the lane-snapping rule of `player_movement`.
 *
 * A held left key and a held right key each pick a new target x from the
 * current x by a threshold rule; the final `target_x` starts at 0 and is
 * overwritten first by the left block, then by the right block.
 */
module Lanes {
  import opened Basics

  const LeftLane: real := -2.5
  const MiddleLane: real := 0.0
  const RightLane: real := 2.5

  /** Horizontal slide speed, in distance units per second. */
  const MoveSpeed: real := 5.0

  /** The value `target_x` holds before either key block runs. */
  const DefaultTargetX: real := 0.0

  const LaneSet: set<real> := {LeftLane, MiddleLane, RightLane}

  /**
   * What the left-key block chooses from `x`: the greatest of the left and
   * middle lanes lying strictly left of `x`, or nothing when there is none
   * (then `target_x` keeps its running value and `is_sliding` is untouched).
   */
  function LeftChoice(x: real): (c: Option<real>)
    ensures c.Some? <==> x > LeftLane
    ensures c.Some? ==> c.value in LaneSet && c.value < x && c.value != RightLane
    ensures c.Some? ==> (LeftLane < x ==> LeftLane <= c.value) && (MiddleLane < x ==> MiddleLane <= c.value)
  {
    if x > MiddleLane then Some(MiddleLane)
    else if x > LeftLane then Some(LeftLane)
    else None
  }

  /**
   * What the right-key block chooses from `x`: the least of the middle and
   * right lanes lying strictly right of `x`, or nothing when there is none.
   */
  function RightChoice(x: real): (c: Option<real>)
    ensures c.Some? <==> x < RightLane
    ensures c.Some? ==> c.value in LaneSet && c.value > x && c.value != LeftLane
    ensures c.Some? ==> (MiddleLane > x ==> c.value <= MiddleLane) && (RightLane > x ==> c.value <= RightLane)
  {
    if x < MiddleLane then Some(MiddleLane)
    else if x < RightLane then Some(RightLane)
    else None
  }

  /**
   * The x of the new target when at least one lane key is held. The right
   * block runs last, so its choice wins; a block that chooses nothing leaves
   * the running value, which is 0 unless the left block chose.
   */
  function LaneTargetX(x: real, left: bool, right: bool): (t: real)
    ensures t in LaneSet
    ensures t != DefaultTargetX ==> LaneFires(x, left, right)
    ensures x > MiddleLane ==> t != LeftLane
    ensures x < MiddleLane ==> t != RightLane
  {
    if right && RightChoice(x).Some? then RightChoice(x).value
    else if left && LeftChoice(x).Some? then LeftChoice(x).value
    else DefaultTargetX
  }

  /** Whether a threshold branch fires, i.e. whether `is_sliding` is set to true. */
  predicate LaneFires(x: real, left: bool, right: bool): (fires: bool)
    ensures fires <==> (left && x > LeftLane) || (right && x < RightLane)
  {
    (left && LeftChoice(x).Some?) || (right && RightChoice(x).Some?)
  }

  /** Every target the keys can produce is one of the three lanes. */
  lemma TargetIsLane(x: real, left: bool, right: bool)
    ensures LaneTargetX(x, left, right) in LaneSet
  {
  }

  /**
   * The left key alone: middle lane from anywhere right of it, left lane from
   * between the left and middle lanes, and the default 0 from the left lane
   * or beyond (so pressing into the left wall retargets the middle lane).
   */
  lemma LeftKeyOnly(x: real)
    ensures x > MiddleLane ==> LaneTargetX(x, true, false) == MiddleLane
    ensures LeftLane < x <= MiddleLane ==> LaneTargetX(x, true, false) == LeftLane
    ensures x <= LeftLane ==> LaneTargetX(x, true, false) == MiddleLane && !LaneFires(x, true, false)
  {
  }

  /** The right key alone, mirrored. */
  lemma RightKeyOnly(x: real)
    ensures x < MiddleLane ==> LaneTargetX(x, false, true) == MiddleLane
    ensures MiddleLane <= x < RightLane ==> LaneTargetX(x, false, true) == RightLane
    ensures x >= RightLane ==> LaneTargetX(x, false, true) == MiddleLane && !LaneFires(x, false, true)
  {
  }

  /**
   * Both keys held: the right block's choice wins whenever it makes one
   * (x below the right lane); at or beyond the right lane the left block's
   * middle-lane choice stands.
   */
  lemma BothKeys(x: real)
    ensures x < RightLane ==> LaneTargetX(x, true, true) == RightChoice(x).value
    ensures x >= RightLane ==> LaneTargetX(x, true, true) == MiddleLane
    ensures LaneFires(x, true, true)
  {
  }

  /**
   * One press never crosses the middle lane: from right of the middle no key
   * combination targets the left lane, and from left of it none targets the
   * right lane.
   */
  lemma NeverSkipsMiddle(x: real, left: bool, right: bool)
    ensures x > MiddleLane ==> LaneTargetX(x, left, right) != LeftLane
    ensures x < MiddleLane ==> LaneTargetX(x, left, right) != RightLane
  {
  }

  /**
   * On the track (between the outer lanes), a firing press targets a lane
   * adjacent to x: no lane lies strictly between x and the new target.
   */
  lemma FiringTargetIsAdjacent(x: real, left: bool, right: bool, l: real)
    requires LeftLane <= x <= RightLane
    requires LaneFires(x, left, right)
    requires l in LaneSet
    ensures var t := LaneTargetX(x, left, right);
            !(t < l < x) && !(x < l < t) && t != x
  {
  }
}
