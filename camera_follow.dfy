/**
 * The camera that trails the player along the street: it keeps its x, waits inside a dead zone
 * on the other two axes, and never leaves the street's z range.
 */
module CameraFollowModel {
  import opened Mathf
  import opened Scene

  /**
   * The dead-zone rule on one axis. Within `range` of the desired coordinate the camera stays
   * where it is; beyond it the camera aims at the point `range` short of the desired coordinate,
   * on its own side (a zero distance counts as positive, as Mathf.Sign does).
   */
  function DeadZone(desired: real, current: real, range: real): (r: real)
    ensures Abs(desired - current) <= range ==> r == current
    ensures Abs(desired - current) > range && desired >= current ==> r == desired - range
    ensures Abs(desired - current) > range && desired < current ==> r == desired + range
    ensures range >= 0.0 ==> Abs(desired - r) <= range && Abs(desired - r) <= Abs(desired - current)
  {
    var distance := desired - current;
    if Abs(distance) > range then desired - Sign(distance) * range else current
  }

  /**
   * The point the camera moves toward: the followed position plus the offset, with x held at
   * the camera's own x, y and z put through the dead-zone rule, and z clamped to [minZ, maxZ].
   */
  function TargetPosition(followed: Vector3, offset: Vector3, current: Vector3,
                          horizontalRange: real, verticalRange: real, minZ: real, maxZ: real): (p: Vector3)
    ensures p.x == current.x
    ensures p.y == DeadZone(followed.y + offset.y, current.y, verticalRange)
    ensures p.z == Clamp(DeadZone(followed.z + offset.z, current.z, horizontalRange), minZ, maxZ)
    ensures minZ <= maxZ ==> minZ <= p.z <= maxZ
  {
    var desired := Vector3(followed.x + offset.x, followed.y + offset.y, followed.z + offset.z);
    var z := DeadZone(desired.z, current.z, horizontalRange);
    var y := DeadZone(desired.y, current.y, verticalRange);
    Vector3(current.x, y, Clamp(z, minZ, maxZ))
  }

  /** A camera whose current position is inside the street's range and within the dead zone stays put. */
  lemma StillInsideDeadZone(followed: Vector3, offset: Vector3, current: Vector3,
                            horizontalRange: real, verticalRange: real, minZ: real, maxZ: real)
    requires Abs(followed.z + offset.z - current.z) <= horizontalRange
    requires Abs(followed.y + offset.y - current.y) <= verticalRange
    requires minZ <= current.z <= maxZ
    ensures TargetPosition(followed, offset, current, horizontalRange, verticalRange, minZ, maxZ) == current
  {
  }

  class CameraFollow {
    const transform: Transform
    var target: Transform?
    const offset: Vector3
    const followSpeed: real
    const horizontalRange: real
    const verticalRange: real
    const minZ: real
    const maxZ: real
    var currentVelocity: Vector3
    var autoFindPlayer: bool

    constructor (transform: Transform, target: Transform?, offset: Vector3, followSpeed: real,
                 horizontalRange: real, verticalRange: real, minZ: real, maxZ: real)
      ensures this.transform == transform && this.target == target && this.offset == offset
      ensures this.followSpeed == followSpeed && this.horizontalRange == horizontalRange
      ensures this.verticalRange == verticalRange && this.minZ == minZ && this.maxZ == maxZ
      ensures currentVelocity == Zero && !autoFindPlayer
    {
      this.transform := transform;
      this.target := target;
      this.offset := offset;
      this.followSpeed := followSpeed;
      this.horizontalRange := horizontalRange;
      this.verticalRange := verticalRange;
      this.minZ := minZ;
      this.maxZ := maxZ;
      currentVelocity := Zero;
      autoFindPlayer := false;
    }

    /** With no target assigned, the camera switches to finding the player by tag; `found` is that search's result. */
    method Start(found: Transform?)
      modifies this
      ensures old(target) == null ==> autoFindPlayer && target == found
      ensures old(target) != null ==> autoFindPlayer == old(autoFindPlayer) && target == old(target)
      ensures currentVelocity == old(currentVelocity)
    {
      if target == null {
        autoFindPlayer := true;
        target := found;
      }
    }

    /**
     * The per-frame follow. A missing target is searched for again when auto-find is on; with
     * still no target the camera does not move. Otherwise the camera's position and velocity are
     * what the smoothing step `smoothDamp` (Vector3.SmoothDamp, given the follow speed whose
     * inverse is its smoothing time) gives toward TargetPosition.
     */
    method LateUpdate(found: Transform?, smoothDamp: (Vector3, Vector3, Vector3, real) -> (Vector3, Vector3))
      modifies this, transform
      ensures target == if old(autoFindPlayer) && old(target) == null then found else old(target)
      ensures autoFindPlayer == old(autoFindPlayer)
      ensures target == null ==> transform.position == old(transform.position) && currentVelocity == old(currentVelocity)
      ensures target != null ==>
        var followed := target;
        var goal := TargetPosition(old(followed.position), offset, old(transform.position),
                                   horizontalRange, verticalRange, minZ, maxZ);
        var step := smoothDamp(old(transform.position), goal, old(currentVelocity), followSpeed);
        transform.position == step.0 && currentVelocity == step.1
      ensures transform.rotation == old(transform.rotation)
    {
      if autoFindPlayer && target == null {
        target := found;
      }
      if target == null {
        return;
      }
      var targetPosition := TargetPosition(target.position, offset, transform.position,
                                           horizontalRange, verticalRange, minZ, maxZ);
      var step := smoothDamp(transform.position, targetPosition, currentVelocity, followSpeed);
      transform.position := step.0;
      currentVelocity := step.1;
    }

    /** A target set by hand replaces the current one and turns auto-find off. */
    method SetTarget(newTarget: Transform?)
      modifies this
      ensures target == newTarget && !autoFindPlayer
      ensures currentVelocity == old(currentVelocity)
    {
      target := newTarget;
      autoFindPlayer := false;
    }
  }
}
