/** The tilt `update` gives the bird: a short tween towards nose-up while rising, nose-down while falling. */
module Tilt {

  import opened Wrappers

  const TILT_ANGLE: int := 20

  /** The angle of the tween `update` starts for vertical velocity `vy`, or `None` when it starts none. */
  function TiltTarget(vy: real): (target: Option<int>)
    ensures target.None? <==> vy == 0.0
    ensures target.Some? ==> (target.value == TILT_ANGLE || target.value == -TILT_ANGLE)
    ensures target.Some? ==> (target.value < 0 <==> vy < 0.0)
  {
    if vy < 0.0 then Some(-TILT_ANGLE)
    else if vy > 0.0 then Some(TILT_ANGLE)
    else None
  }
}
