/**
 * The small pieces of tool state the frame computes: the spline vertex cursor
 * moved by the mouse wheel, and the axis an active lock constrains the tool to.
 */
module ToolState {
  import opened Scene

  /**
   * One wheel step of the vertex cursor over a spline of `vertexCount`
   * vertices: a positive notch count moves it up while it is below the last
   * vertex; any other count (the notch count is never negative, so this is a
   * zero count) moves it down while it is above 0. It never wraps.
   */
  function WheelStep(cursor: int, vertexCount: nat, delta: nat): (r: int)
    ensures r == cursor - 1 || r == cursor || r == cursor + 1
    ensures cursor >= 0 ==> r >= 0
  {
    if delta > 0 then
      if cursor < vertexCount - 1 then cursor + 1 else cursor
    else if cursor > 0 then cursor - 1 else cursor
  }

  /** The cursor names a vertex of a spline, or is 0 on an empty spline. */
  predicate CursorInRange(cursor: int, vertexCount: nat)
  {
    0 <= cursor && (cursor < vertexCount || cursor == 0)
  }

  /**
   * The step moves the cursor by at most one, never makes it negative and
   * never pushes it past the last vertex; it moves up exactly when a notch
   * was scrolled and the cursor was below the last vertex, and down exactly
   * when none was and the cursor was above 0.
   */
  lemma WheelStepBounds(cursor: int, vertexCount: nat, delta: nat)
    ensures var r := WheelStep(cursor, vertexCount, delta);
      && (r == cursor + 1 <==> delta > 0 && cursor < vertexCount - 1)
      && (r == cursor - 1 <==> delta == 0 && cursor > 0)
      && (r == cursor || r == cursor + 1 || r == cursor - 1)
      && (cursor >= 0 ==> r >= 0)
      && (r > cursor ==> r <= vertexCount - 1)
  {
  }

  /** The step keeps the cursor in range. */
  lemma WheelStepKeepsRange(cursor: int, vertexCount: nat, delta: nat)
    requires CursorInRange(cursor, vertexCount)
    ensures CursorInRange(WheelStep(cursor, vertexCount, delta), vertexCount)
  {
  }

  /** The cursor after the steps for the notch counts `deltas`, one per frame. */
  function WheelSteps(cursor: int, vertexCount: nat, deltas: seq<nat>): int
    decreases |deltas|
  {
    if deltas == [] then cursor
    else WheelSteps(WheelStep(cursor, vertexCount, deltas[0]), vertexCount, deltas[1..])
  }

  /** However many frames pass, a cursor that starts in range stays in range. */
  lemma {:induction false} WheelStepsKeepRange(cursor: int, vertexCount: nat, deltas: seq<nat>)
    requires CursorInRange(cursor, vertexCount)
    ensures CursorInRange(WheelSteps(cursor, vertexCount, deltas), vertexCount)
    decreases |deltas|
  {
    if deltas != [] {
      WheelStepKeepsRange(cursor, vertexCount, deltas[0]);
      WheelStepsKeepRange(WheelStep(cursor, vertexCount, deltas[0]), vertexCount, deltas[1..]);
    }
  }

  /** Frames without a scrolled notch walk the cursor down to 0 and keep it there. */
  lemma {:induction false} IdleFramesReachFirstVertex(cursor: int, vertexCount: nat, deltas: seq<nat>)
    requires 0 <= cursor <= |deltas|
    requires forall j :: 0 <= j < |deltas| ==> deltas[j] == 0
    ensures WheelSteps(cursor, vertexCount, deltas) == 0
    decreases |deltas|
  {
    if deltas != [] {
      IdleFramesReachFirstVertex(WheelStep(cursor, vertexCount, deltas[0]), vertexCount, deltas[1..]);
    }
  }

  /**
   * The axis the tool is applied along when locks are set: X before Y
   * before Z, none when no lock is set.
   */
  function LockedAxis(xLock: bool, yLock: bool, zLock: bool): (axis: Option<Axis>)
    ensures axis.None? <==> !xLock && !yLock && !zLock
    ensures axis == Some(X) <==> xLock
  {
    if xLock then Some(X)
    else if yLock then Some(Y)
    else if zLock then Some(Z)
    else None
  }

  /** The three axis-lock flags of the frame. */
  datatype Locks = Locks(x: bool, y: bool, z: bool)

  /** The locks after picking the handle of `axis`: its flag is set, the others are kept. */
  function SetLock(locks: Locks, axis: Axis): Locks
  {
    match axis
    case X => locks.(x := true)
    case Y => locks.(y := true)
    case Z => locks.(z := true)
  }

  function LocksAfter(locks: Locks, hits: seq<Axis>): Locks
    decreases |hits|
  {
    if hits == [] then locks else LocksAfter(SetLock(locks, hits[0]), hits[1..])
  }

  /**
   * Locks are only ever set, so after a series of handle hits starting with no
   * lock, the tool follows the highest-precedence axis that was hit at all,
   * not the most recent one.
   */
  lemma {:induction false} LockedAxisAfterHits(locks: Locks, hits: seq<Axis>)
    ensures var after := LocksAfter(locks, hits);
      && (after.x <==> locks.x || X in hits)
      && (after.y <==> locks.y || Y in hits)
      && (after.z <==> locks.z || Z in hits)
      && (locks == Locks(false, false, false) ==>
            LockedAxis(after.x, after.y, after.z) ==
              (if X in hits then Some(X) else if Y in hits then Some(Y) else if Z in hits then Some(Z) else None))
    decreases |hits|
  {
    if hits != [] {
      LockedAxisAfterHits(SetLock(locks, hits[0]), hits[1..]);
      assert forall a :: a in hits <==> a == hits[0] || a in hits[1..];
    }
  }
}
