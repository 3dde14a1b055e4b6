/** Screen geometry shared by every entity of the simulator: integer vectors and
    rectangles, Go's truncating integer division, the per-frame input snapshot,
    the collision/transcription helpers the core consumes, and Sprite.drag. */
module Geometry {

  /** Base (windowed) resolution every per-frame delta is expressed against. */
  const BaseScreenWidth: int := 1250
  const BaseScreenHeight: int := 750

  datatype Vector = Vector(x: int, y: int)

  datatype Rect = Rect(pos: Vector, width: int, height: int)

  function Abs(n: int): nat { if n < 0 then -n else n }

  /** Go's `/` on `int`: the quotient truncated toward zero, so the remainder
      carries the sign of the dividend (Dafny's own `/` is Euclidean). */
  function GoDiv(a: int, b: int): int
    requires b != 0
  {
    if (a < 0) == (b < 0) then Abs(a) / Abs(b) else -(Abs(a) / Abs(b))
  }

  /** What makes GoDiv Go's division: the remainder `a - q * b` is smaller than
      the divisor in magnitude and never has the opposite sign of the dividend. */
  lemma GoDivRemainder(a: int, b: int)
    requires b != 0
    ensures var q := GoDiv(a, b);
      && Abs(a - q * b) < Abs(b)
      && (0 <= a ==> 0 <= a - q * b)
      && (a < 0 ==> a - q * b <= 0)
  {
    var m := Abs(a) / Abs(b);
    var rem := Abs(a) % Abs(b);
    assert Abs(a) == m * Abs(b) + rem && 0 <= rem < Abs(b);
    assert GoDiv(a, b) * b == (if a < 0 then -(m * Abs(b)) else m * Abs(b)) by {
      MulSigns(m, b);
    }
  }

  lemma MulSigns(m: int, b: int)
    ensures m * b == (if b < 0 then -(m * Abs(b)) else m * Abs(b))
    ensures -m * b == -(m * b)
  {
  }

  /** Negating the dividend negates Go's quotient; Euclidean division does not
      have this symmetry, which is why the model never uses it on cursor maths. */
  lemma GoDivOdd(a: int, b: int)
    requires b != 0
    ensures GoDiv(-a, b) == -GoDiv(a, b)
  {
    assert Abs(-a) == Abs(a);
    if a == 0 {
      assert GoDiv(a, b) == 0 && GoDiv(-a, b) == 0;
    } else if (a < 0) == (b < 0) {
      assert GoDiv(a, b) == Abs(a) / Abs(b);
      assert GoDiv(-a, b) == -(Abs(a) / Abs(b));
    } else {
      assert GoDiv(a, b) == -(Abs(a) / Abs(b));
      assert GoDiv(-a, b) == Abs(a) / Abs(b);
    }
  }

  /** For a positive divisor Go's quotient is monotone in the dividend. */
  lemma GoDivMonotone(a1: int, a2: int, b: int)
    requires a1 <= a2 && 0 < b
    ensures GoDiv(a1, b) <= GoDiv(a2, b)
  {
    GoDivPositive(a1, b);
    GoDivPositive(a2, b);
    if a1 < 0 <= a2 {
      DivNonNegative(-a1, b);
      DivNonNegative(a2, b);
    } else if 0 <= a1 {
      DivMonotone(a1, a2, b);
    } else {
      DivMonotone(-a2, -a1, b);
    }
  }

  /** GoDiv for a positive divisor, without Abs. */
  lemma GoDivPositive(a: int, b: int)
    requires 0 < b
    ensures GoDiv(a, b) == if a < 0 then -((-a) / b) else a / b
  {
    assert Abs(b) == b;
    assert Abs(a) == if a < 0 then -a else a;
  }

  lemma DivNonNegative(x: int, b: int)
    requires 0 <= x && 0 < b
    ensures 0 <= x / b
  {
  }

  lemma DivMonotone(x: int, y: int, b: int)
    requires 0 <= x <= y && 0 < b
    ensures x / b <= y / b
  {
    var qx, qy := x / b, y / b;
    assert x == qx * b + x % b && y == qy * b + y % b;
    if qx > qy {
      MulStep(qx - qy, b);
      assert false;
    }
  }

  lemma MulStep(k: int, b: int)
    requires 1 <= k && 0 < b
    ensures k * b >= b
  {
  }

  /** One frame of input, taken from ebiten: cursor position, left-button state
      and display mode. */
  datatype Input = Input(
    cursor: Vector,
    pressed: bool,       // IsMouseButtonPressed(left)
    justPressed: bool,   // inpututil.IsMouseButtonJustPressed(left)
    justReleased: bool,  // inpututil.IsMouseButtonJustReleased(left)
    fullscreen: bool)    // IsFullscreen()

  /** ebiten's contract for one tick: a button that was just pressed is down,
      a button that was just released is up. */
  predicate WellFormed(i: Input) {
    (i.justPressed ==> i.pressed) && (i.justReleased ==> !i.pressed)
  }

  /** Helpers defined in files outside this model, kept abstract:
      rect_point_collision, aabb_collision and transcribe. */
  datatype Helpers = Helpers(
    pointIn: (Rect, Vector) -> bool,
    overlap: (Rect, Rect) -> bool,
    transcribe: string -> string)

  /** Sprite.drag: along each enabled axis the rect is centred on the pointer;
      a disabled axis and the rect's size are left alone. */
  function Drag(r: Rect, xDrag: bool, yDrag: bool, p: Vector): (d: Rect)
    ensures d.width == r.width && d.height == r.height
    ensures xDrag ==> d.pos.x == p.x - GoDiv(r.width, 2)
    ensures yDrag ==> d.pos.y == p.y - GoDiv(r.height, 2)
    ensures !xDrag ==> d.pos.x == r.pos.x
    ensures !yDrag ==> d.pos.y == r.pos.y
  {
    var x := if xDrag then p.x - GoDiv(r.width, 2) else r.pos.x;
    var y := if yDrag then p.y - GoDiv(r.height, 2) else r.pos.y;
    Rect(Vector(x, y), r.width, r.height)
  }

  /** The grab point stays under the pointer: on a dragged axis the pointer sits
      at the centre of the rect, the two sides differing by at most one pixel,
      and for a rect of positive size it lies inside the rect's half-open span. */
  lemma DragCentres(r: Rect, xDrag: bool, yDrag: bool, p: Vector)
    ensures var d := Drag(r, xDrag, yDrag, p);
      && (xDrag ==> -1 <= (d.pos.x + r.width - p.x) - (p.x - d.pos.x) <= 1)
      && (yDrag ==> -1 <= (d.pos.y + r.height - p.y) - (p.y - d.pos.y) <= 1)
      && (xDrag && 0 < r.width ==> d.pos.x <= p.x < d.pos.x + r.width)
      && (yDrag && 0 < r.height ==> d.pos.y <= p.y < d.pos.y + r.height)
  {
  }
}
