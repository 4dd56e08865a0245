/**
 * The coordinate mathematics of a scene rotation: which way a step turns,
 * whether it swaps the canvas axes, the point transform applied to every
 * embedded position, and the background-offset rotation.
 */
module Geometry {

  datatype Point = Point(x: real, y: real)

  /**
   * The branch a rotation step selects in the `if` chains of `rotate`:
   * 90 and -270 turn clockwise, -90 and 270 counter-clockwise, +-180 is a
   * half turn, and every other step (0, +-360, 450, ...) falls through all
   * branches and moves nothing.
   */
  datatype Turn = Clockwise | CounterClockwise | HalfTurn | NoTurn

  function TurnOf(degrees: int): (t: Turn)
    ensures t == Clockwise <==> degrees == 90 || degrees == -270
    ensures t == CounterClockwise <==> degrees == -90 || degrees == 270
    ensures t == HalfTurn <==> degrees == 180 || degrees == -180
  {
    if degrees == 90 || degrees == -270 then Clockwise
    else if degrees == -90 || degrees == 270 then CounterClockwise
    else if Abs(degrees) == 180 then HalfTurn
    else NoTurn
  }

  function Abs(n: int): (r: nat)
    ensures r == n || r == -n
  {
    if n < 0 then -n else n
  }

  /**
   * `Math.abs(degrees) % 180 !== 0`: the step exchanges width and height,
   * which happens exactly for an odd number of quarter turns, whatever the
   * sign of the step.
   */
  function IsSwap(degrees: int): (swaps: bool)
    ensures swaps <==> degrees % 180 != 0
    ensures swaps <==> (-degrees) % 180 != 0
  {
    HalfTurnsEitherSign(degrees);
    Abs(degrees) % 180 != 0
  }

  /** A multiple of 180 stays one when negated. */
  lemma HalfTurnsEitherSign(n: int)
    ensures n % 180 == 0 <==> (-n) % 180 == 0
  {
    if n % 180 == 0 {
      assert -n == 180 * -(n / 180);
    }
    if (-n) % 180 == 0 {
      assert n == 180 * -((-n) / 180);
    }
  }

  /** Canvas width after the step: the old height on a swapping step. */
  function NewWidth(w: real, h: real, degrees: int): (r: real)
    ensures degrees % 180 != 0 ==> r == h
    ensures degrees % 180 == 0 ==> r == w
  {
    if IsSwap(degrees) then h else w
  }

  /** Canvas height after the step: the old width on a swapping step. */
  function NewHeight(w: real, h: real, degrees: int): (r: real)
    ensures degrees % 180 != 0 ==> r == w
    ensures degrees % 180 == 0 ==> r == h
  {
    if IsSwap(degrees) then w else h
  }

  /** The opposite step gives the canvas its old size back. */
  lemma CanvasRestored(w: real, h: real, degrees: int)
    ensures NewWidth(NewWidth(w, h, degrees), NewHeight(w, h, degrees), -degrees) == w
    ensures NewHeight(NewWidth(w, h, degrees), NewHeight(w, h, degrees), -degrees) == h
  {
    HalfTurnsEitherSign(degrees);
  }

  predicate InCanvas(p: Point, w: real, h: real) {
    0.0 <= p.x <= w && 0.0 <= p.y <= h
  }

  /** A quarter turn swaps the axes, a half turn does not. */
  lemma TurnSwaps(degrees: int)
    ensures TurnOf(degrees) == Clockwise || TurnOf(degrees) == CounterClockwise ==> IsSwap(degrees)
    ensures TurnOf(degrees) == HalfTurn ==> !IsSwap(degrees)
  {
  }

  /**
   * The point transform (the `transform` closure of `rotate`) on a canvas of
   * old width `w` and old height `h`. For every proper step the canvas is
   * mapped onto the rotated canvas; any other step leaves the point alone.
   */
  function Transform(p: Point, w: real, h: real, degrees: int): (r: Point)
    ensures TurnOf(degrees) == NoTurn ==> r == p
    ensures TurnOf(degrees) != NoTurn && InCanvas(p, w, h) ==>
              InCanvas(r, NewWidth(w, h, degrees), NewHeight(w, h, degrees))
    ensures TurnOf(degrees) != NoTurn && InCanvas(r, NewWidth(w, h, degrees), NewHeight(w, h, degrees)) ==>
              InCanvas(p, w, h)
  {
    match TurnOf(degrees)
    case Clockwise => Point(h - p.y, p.x)
    case CounterClockwise => Point(p.y, w - p.x)
    case HalfTurn => Point(w - p.x, h - p.y)
    case NoTurn => p
  }

  /**
   * The opposite step on the rotated canvas undoes a proper step exactly,
   * in either order of the two steps (180 is its own opposite).
   */
  lemma TransformInverse(p: Point, w: real, h: real, degrees: int)
    requires TurnOf(degrees) != NoTurn
    ensures Transform(Transform(p, w, h, degrees), NewWidth(w, h, degrees), NewHeight(w, h, degrees), -degrees) == p
  {
  }

  /** +90 on (W,H) followed by -90 on (H,W), and the reverse order. */
  lemma QuarterTurnsCancel(p: Point, w: real, h: real)
    ensures Transform(Transform(p, w, h, 90), h, w, -90) == p
    ensures Transform(Transform(p, w, h, -90), h, w, 90) == p
    ensures Transform(Transform(p, w, h, 180), w, h, 180) == p
  {
    TransformInverse(p, w, h, 90);
    TransformInverse(p, w, h, -90);
    TransformInverse(p, w, h, 180);
  }

  /** A proper step keeps distances: it is a rigid motion of the plane. */
  lemma TransformIsometry(p: Point, q: Point, w: real, h: real, degrees: int)
    ensures var p', q' := Transform(p, w, h, degrees), Transform(q, w, h, degrees);
      (p'.x - q'.x) * (p'.x - q'.x) + (p'.y - q'.y) * (p'.y - q'.y)
      == (p.x - q.x) * (p.x - q.x) + (p.y - q.y) * (p.y - q.y)
  {
  }

  /**
   * The background offset, rotated as a vector about the origin; a missing
   * offset component has already been read as zero by the caller.
   */
  function RotateOffset(off: Point, degrees: int): (r: Point)
    ensures r.x * r.x + r.y * r.y == off.x * off.x + off.y * off.y
  {
    match TurnOf(degrees)
    case Clockwise => Point(-off.y, off.x)
    case CounterClockwise => Point(off.y, -off.x)
    case HalfTurn => Point(-off.x, -off.y)
    case NoTurn => off
  }

  /**
   * The offset rotation is the point transform on a canvas of zero extent,
   * so it does not depend on the scene's width and height.
   */
  lemma OffsetIsVectorTransform(off: Point, degrees: int)
    ensures RotateOffset(off, degrees) == Transform(off, 0.0, 0.0, degrees)
  {
  }

  /** The opposite step restores the offset. */
  lemma OffsetInverse(off: Point, degrees: int)
    ensures RotateOffset(RotateOffset(off, degrees), -degrees) == off
  {
  }
}
