/** The pure helpers of the arena module: the bounds of a rectangular
    arena centred on the origin, its corners, the boundary test with its
    clamped coordinate, and the colour and coordinate helpers used when
    the arena is drawn. */
module ArenaGeometry {
  import opened Base

  function Abs(x: real): real { if x < 0.0 then -x else x }

  /** towards_zero: moves point by dist towards zero; 0 counts as positive. */
  function TowardsZero(point: real, dist: real): (r: real)
    ensures point == 0.0 ==> r == -dist
    ensures 0.0 <= dist <= Abs(point) ==> Abs(r) == Abs(point) - dist
    ensures 0.0 <= dist <= Abs(point) && point != 0.0 && r != 0.0 ==> (r < 0.0 <==> point < 0.0)
  {
    if point < 0.0 then point + dist else point - dist
  }

  /** lerp: the point a fraction delta of the way from a to b. */
  function Lerp(delta: real, a: real, b: real): (r: real)
    ensures delta == 0.0 ==> r == a
    ensures delta == 1.0 ==> r == b
    ensures r - a == delta * (b - a)
  {
    delta * b + (1.0 - delta) * a
  }

  /** A lerp with delta in [0, 1] never leaves the interval between a and b. */
  lemma LerpBetween(delta: real, a: real, b: real)
    requires 0.0 <= delta <= 1.0
    ensures a <= b ==> a <= Lerp(delta, a, b) <= b
    ensures b <= a ==> b <= Lerp(delta, a, b) <= a
  {
    var d := b - a;
    assert Lerp(delta, a, b) == a + delta * d;
    if d >= 0.0 {
      assert delta * d <= 1.0 * d by { assert (1.0 - delta) * d >= 0.0; }
      assert delta * d >= 0.0;
    } else {
      assert delta * (-d) <= 1.0 * (-d) by { assert (1.0 - delta) * (-d) >= 0.0; }
      assert delta * (-d) >= 0.0;
    }
  }

  /** apply_transparency: blends two colours channel by channel; like
      Python's two-argument map it stops at the shorter of the two. */
  function ApplyTransparency(foreground: seq<real>, background: seq<real>, opacity: real): (r: seq<real>)
    ensures |r| == Min(|foreground|, |background|)
    ensures forall i :: 0 <= i < |r| ==> r[i] == Lerp(opacity, background[i], foreground[i])
    ensures opacity == 1.0 ==> r == foreground[..|r|]
    ensures opacity == 0.0 ==> r == background[..|r|]
  {
    var n := Min(|foreground|, |background|);
    seq(n, i requires 0 <= i < n => background[i] + (foreground[i] - background[i]) * opacity)
  }

  /** The arena's edges for a size (width, height) centred on the origin. */
  function Left(size: Vec): real { -size.x / 2.0 }
  function Right(size: Vec): real { size.x / 2.0 }
  function Top(size: Vec): real { -size.y / 2.0 }
  function Bottom(size: Vec): real { size.y / 2.0 }

  /** The corners, clockwise from (left, top). */
  function Corners(size: Vec): (r: seq<Vec>)
    ensures |r| == 4
    ensures r[0] == Vec(Left(size), Top(size)) && r[1] == Vec(Right(size), Top(size))
    ensures r[2] == Vec(Right(size), Bottom(size)) && r[3] == Vec(Left(size), Bottom(size))
  {
    [Vec(Left(size), Top(size)), Vec(Right(size), Top(size)),
     Vec(Right(size), Bottom(size)), Vec(Left(size), Bottom(size))]
  }

  /** The result of contains_point: whether p is inside and, if not, the
      axis found at fault (0 for x, 1 for y) and that coordinate clamped
      to the arena. */
  datatype PointCheck = PointCheck(inside: bool, axis: Option<nat>, clamped: Option<real>)

  function ClampTo(v: real, lo: real, hi: real): real {
    var m := if v <= hi then v else hi;
    if lo >= m then lo else m
  }

  function ContainsPoint(size: Vec, p: Vec): (r: PointCheck)
    ensures r.inside <==> Left(size) < p.x < Right(size) && Top(size) < p.y < Bottom(size)
    ensures r.inside ==> r.axis == None && r.clamped == None
    ensures !(Left(size) < p.x < Right(size)) ==> r.axis == Some(0)
    ensures Left(size) < p.x < Right(size) && !(Top(size) < p.y < Bottom(size)) ==> r.axis == Some(1)
    ensures size.x >= 0.0 && r.axis == Some(0) ==>
      r.clamped == Some(if p.x <= Left(size) then Left(size) else Right(size))
    ensures size.y >= 0.0 && r.axis == Some(1) ==>
      r.clamped == Some(if p.y <= Top(size) then Top(size) else Bottom(size))
  {
    if !(Left(size) < p.x < Right(size)) then
      PointCheck(false, Some(0), Some(ClampTo(p.x, Left(size), Right(size))))
    else if !(Top(size) < p.y < Bottom(size)) then
      PointCheck(false, Some(1), Some(ClampTo(p.y, Top(size), Bottom(size))))
    else
      PointCheck(true, None, None)
  }

  /** The boundary is outside: every corner fails the x test, and its
      clamped x is the corner's own x. */
  lemma {:induction false} CornersOutside(size: Vec)
    requires size.x >= 0.0
    ensures forall c :: c in Corners(size) ==>
      ContainsPoint(size, c) == PointCheck(false, Some(0), Some(c.x))
  {
    var cs := Corners(size);
    forall c | c in cs ensures ContainsPoint(size, c) == PointCheck(false, Some(0), Some(c.x)) {
      assert c == cs[0] || c == cs[1] || c == cs[2] || c == cs[3];
      assert c.x == Left(size) || c.x == Right(size);
    }
  }
}
