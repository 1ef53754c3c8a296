/** The player's movement: yaw from the held rotate keys once per frame
    (script.js:221-222) and position from a pointer drag
    (script.js:139-147). */
module Player {
  import opened Config
  import opened Bounds

  /** The yaw after one frame: plus RotationSpeed when rotate-left is held,
      then minus RotationSpeed when rotate-right is held. The amount does
      not depend on the frame's length. */
  function Turned(yaw: real, left: bool, right: bool): real {
    var afterLeft := if left then yaw + RotationSpeed else yaw;
    if right then afterLeft - RotationSpeed else afterLeft
  }

  /** The yaw after `frames` frames with the same keys held. */
  function TurnedFor(yaw: real, left: bool, right: bool, frames: nat): real
    decreases frames
  {
    if frames == 0 then yaw else TurnedFor(Turned(yaw, left, right), left, right, frames - 1)
  }

  /** One frame of turning: left alone adds RotationSpeed, right alone
      subtracts it, both or neither leave the yaw as it was. */
  lemma TurnedCases(yaw: real, left: bool, right: bool)
    ensures left && !right ==> Turned(yaw, left, right) == yaw + RotationSpeed
    ensures right && !left ==> Turned(yaw, left, right) == yaw - RotationSpeed
    ensures left == right ==> Turned(yaw, left, right) == yaw
  {
  }

  /** Holding only rotate-left for n frames turns by exactly n * RotationSpeed. */
  lemma {:induction false} HoldingLeft(yaw: real, frames: nat)
    ensures TurnedFor(yaw, true, false, frames) == yaw + frames as real * RotationSpeed
    decreases frames
  {
    if frames > 0 {
      HoldingLeft(yaw + RotationSpeed, frames - 1);
    }
  }

  /** Holding only rotate-right for n frames turns by exactly -n * RotationSpeed. */
  lemma {:induction false} HoldingRight(yaw: real, frames: nat)
    ensures TurnedFor(yaw, false, true, frames) == yaw - frames as real * RotationSpeed
    decreases frames
  {
    if frames > 0 {
      HoldingRight(yaw - RotationSpeed, frames - 1);
    }
  }

  /** Holding both keys, or neither, for any number of frames leaves the
      yaw unchanged. */
  lemma {:induction false} HoldingBothOrNeither(yaw: real, held: bool, frames: nat)
    ensures TurnedFor(yaw, held, held, frames) == yaw
    decreases frames
  {
    if frames > 0 {
      assert Turned(yaw, held, held) == yaw;
      HoldingBothOrNeither(yaw, held, frames - 1);
    }
  }

  /** The player's x after a drag move of dx pixels. */
  function DraggedX(x: real, dx: real): real {
    x + dx * DragSensitivityX
  }

  /** The player's y after a drag move of dy pixels: screen y grows
      downwards, so y decreases, and is then clamped to the player range. */
  function DraggedY(y: real, dy: real): (r: real)
    ensures PlayerMinY <= r <= PlayerMaxY
  {
    Clamp(y - dy * DragSensitivityY, PlayerMinY, PlayerMaxY)
  }

  /** A drag whose unclamped target lies in range moves y there exactly;
      one past either end stops at that end. */
  lemma DraggedYCases(y: real, dy: real)
    ensures var target := y - dy * DragSensitivityY;
      && (PlayerMinY <= target <= PlayerMaxY ==> DraggedY(y, dy) == target)
      && (target < PlayerMinY ==> DraggedY(y, dy) == PlayerMinY)
      && (target > PlayerMaxY ==> DraggedY(y, dy) == PlayerMaxY)
  {
  }

  /** A sequence of drag moves, each given as its (dx, dy). */
  function DraggedYAll(y: real, dys: seq<real>): real
    decreases |dys|
  {
    if dys == [] then y else DraggedYAll(DraggedY(y, dys[0]), dys[1..])
  }

  /** However many drag moves of whatever size, y ends in the player range
      as long as it started there. */
  lemma {:induction false} DragsStayInRange(y: real, dys: seq<real>)
    requires PlayerMinY <= y <= PlayerMaxY
    ensures PlayerMinY <= DraggedYAll(y, dys) <= PlayerMaxY
    decreases |dys|
  {
    if dys != [] {
      DragsStayInRange(DraggedY(y, dys[0]), dys[1..]);
    }
  }
}
