/** The camera zoom of the wheel handler (script.js:157-162). The offset
    vector is kept only as its length; its direction is not modelled. */
module Camera {
  import opened Config
  import opened Bounds

  /** The square of the length of the initial offset (0, 4, 8). */
  const InitialOffsetLengthSquared: real :=
    InitialOffsetX * InitialOffsetX + InitialOffsetY * InitialOffsetY + InitialOffsetZ * InitialOffsetZ

  /** The offset length after one wheel event of `deltaY`. */
  function Zoomed(len: real, deltaY: real): (r: real)
    ensures MinZoom <= r <= MaxZoom
    ensures MinZoom <= len + deltaY * ZoomPerWheelUnit <= MaxZoom ==> r == len + deltaY * ZoomPerWheelUnit
  {
    Clamp(len + deltaY * ZoomPerWheelUnit, MinZoom, MaxZoom)
  }

  /** The offset length after a sequence of wheel events. */
  function ZoomedAll(len: real, deltas: seq<real>): real
    decreases |deltas|
  {
    if deltas == [] then len else ZoomedAll(Zoomed(len, deltas[0]), deltas[1..])
  }

  function Sum(deltas: seq<real>): real
    decreases |deltas|
  {
    if deltas == [] then 0.0 else deltas[0] + Sum(deltas[1..])
  }

  predicate AllNonNegative(deltas: seq<real>) {
    forall i :: 0 <= i < |deltas| ==> deltas[i] >= 0.0
  }

  lemma {:induction false} SumNonNegative(deltas: seq<real>)
    requires AllNonNegative(deltas)
    ensures Sum(deltas) >= 0.0
    decreases |deltas|
  {
    if deltas != [] {
      SumNonNegative(deltas[1..]);
    }
  }

  /** The initial offset length lies in the zoom range. */
  lemma InitialLengthInRange(len: real)
    requires len > 0.0 && len * len == InitialOffsetLengthSquared
    ensures MinZoom <= len <= MaxZoom
    ensures len + 1.0 <= MaxZoom
  {
  }

  /** Wheeling out by +100 from the initial offset adds exactly 1 to its
      length (about 8.94 becomes about 9.94). */
  lemma WheelFromInitialOffset(len: real)
    requires len > 0.0 && len * len == InitialOffsetLengthSquared
    ensures Zoomed(len, 100.0) == len + 1.0
  {
    InitialLengthInRange(len);
  }

  /** Wheel events in the zoom-out direction, from a length in range, add up
      until the length reaches MaxZoom, and then it stays there. */
  lemma {:induction false} ZoomOutSaturates(len: real, deltas: seq<real>)
    requires MinZoom <= len <= MaxZoom && AllNonNegative(deltas)
    ensures ZoomedAll(len, deltas) == Min(MaxZoom, len + Sum(deltas) * ZoomPerWheelUnit)
    decreases |deltas|
  {
    if deltas != [] {
      var next := Zoomed(len, deltas[0]);
      assert AllNonNegative(deltas[1..]) by {
        forall i | 0 <= i < |deltas[1..]| ensures deltas[1..][i] >= 0.0 {
          assert deltas[1..][i] == deltas[i + 1];
        }
      }
      ZoomOutSaturates(next, deltas[1..]);
      SumNonNegative(deltas[1..]);
      assert deltas[0] >= 0.0;
    }
  }

  /** Once at MaxZoom, further zoom-out wheel events keep it at MaxZoom. */
  lemma StaysAtMaxZoom(deltas: seq<real>)
    requires AllNonNegative(deltas)
    ensures ZoomedAll(MaxZoom, deltas) == MaxZoom
  {
    ZoomOutSaturates(MaxZoom, deltas);
    SumNonNegative(deltas);
  }

  /** Whatever the wheel events, the length stays in the zoom range. */
  lemma {:induction false} ZoomStaysInRange(len: real, deltas: seq<real>)
    requires MinZoom <= len <= MaxZoom
    ensures MinZoom <= ZoomedAll(len, deltas) <= MaxZoom
    decreases |deltas|
  {
    if deltas != [] {
      ZoomStaysInRange(Zoomed(len, deltas[0]), deltas[1..]);
    }
  }
}
