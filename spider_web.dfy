/** The pointer-reactive spider-web graphic (updateWebElements in script.js).
    A pointer position is reduced to a normalised distance in [0, 1]; every
    line, circle, the spider, the centre and the spiral lines get attributes
    that are affine in that distance, and each circle's stored centre drifts
    by a distance-proportional step on every call. Cosine and sine are not
    modelled: they enter as a parameter `trig` that maps an angle in degrees
    to its (cos, sin) pair. */
module SpiderWeb {

  datatype Direction = Direction(cos: real, sin: real)

  /** The centre of the web in the graphic's coordinates. */
  const WebX: real := 400.0
  const WebY: real := 300.0

  /** `Math.min(distance / maxDistance, 1)`. */
  function NormalizedDistance(distance: real, maxDistance: real): (n: real)
    requires maxDistance > 0.0
    ensures distance >= 0.0 ==> 0.0 <= n
    ensures n <= 1.0
    ensures n == 1.0 <==> distance >= maxDistance
    ensures distance < maxDistance ==> n * maxDistance == distance
  {
    if distance / maxDistance < 1.0 then distance / maxDistance else 1.0
  }

  /** A pointer at the viewport centre gives distance 0; a pointer at a
      viewport corner gives distance 1. */
  lemma PointerExtremes(mouseX: real, mouseY: real, centerX: real, centerY: real,
                        distance: real, maxDistance: real)
    requires maxDistance > 0.0 && maxDistance * maxDistance == centerX * centerX + centerY * centerY
    requires distance >= 0.0
    requires distance * distance == (mouseX - centerX) * (mouseX - centerX) + (mouseY - centerY) * (mouseY - centerY)
    ensures mouseX == centerX && mouseY == centerY ==> NormalizedDistance(distance, maxDistance) == 0.0
    ensures mouseX == 0.0 && mouseY == 0.0 ==> NormalizedDistance(distance, maxDistance) == 1.0
  {
    if mouseX == centerX && mouseY == centerY {
      SameSquares(distance, 0.0);
    }
    if mouseX == 0.0 && mouseY == 0.0 {
      assert (0.0 - centerX) * (0.0 - centerX) == centerX * centerX;
      assert (0.0 - centerY) * (0.0 - centerY) == centerY * centerY;
      SameSquares(distance, maxDistance);
    }
  }

  /** Non-negative reals with equal squares are equal. */
  lemma SameSquares(a: real, b: real)
    requires a >= 0.0 && b >= 0.0 && a * a == b * b
    ensures a == b
  {
    if a < b {
      SquareGrows(a, b);
    } else if b < a {
      SquareGrows(b, a);
    }
  }

  lemma SquareGrows(x: real, y: real)
    requires 0.0 <= x < y
    ensures x * x < y * y
  {
    var mid := x * y;
    assert x * x <= mid;
    assert mid < y * y;
  }

  /** The angle of the line or circle at `index`, in degrees. */
  function AngleOf(index: int): int {
    index * 45
  }

  /** A radial line: its end point and stroke. `reach` is the length plus
      the extra influence, the end point's distance from the web centre. */
  datatype Line = Line(x2: real, y2: real, reach: real, opacity: real, strokeWidth: real)

  function LineAt(index: int, d: real, trig: int -> Direction): (l: Line)
    ensures 0.0 <= d <= 1.0 ==>
      200.0 <= l.reach <= 350.0 && 0.2 <= l.opacity <= 0.5 && 1.0 <= l.strokeWidth <= 3.0
    ensures d == 0.0 ==> l.reach == 200.0 && l.opacity == 0.2 && l.strokeWidth == 1.0
    ensures d == 1.0 ==> l.reach == 350.0 && l.opacity == 0.5 && l.strokeWidth == 3.0
    ensures l.x2 == WebX + trig(AngleOf(index)).cos * l.reach
    ensures l.y2 == WebY + trig(AngleOf(index)).sin * l.reach
  {
    var lineLength := 200.0 + d * 100.0;
    var influence := d * 50.0;
    var dir := trig(AngleOf(index));
    Line(WebX + dir.cos * (lineLength + influence), WebY + dir.sin * (lineLength + influence),
         lineLength + influence, 0.2 + d * 0.3, 1.0 + d * 2.0)
  }

  /** A connecting circle: centre, radius and fill opacity. */
  datatype Circle = Circle(cx: real, cy: real, r: real, opacity: real)

  /** One circle after a call: radius and opacity recomputed, centre moved
      from where it was by (cos, sin) of its angle times d * 10. */
  function Drift(c: Circle, index: int, d: real, trig: int -> Direction): (n: Circle)
    ensures 0.0 <= d <= 1.0 ==> 3.0 <= n.r <= 8.0 && 0.1 <= n.opacity <= 0.5
    ensures d > 0.0 ==> (n.cx > c.cx <==> trig(AngleOf(index)).cos > 0.0)
    ensures d > 0.0 ==> (n.cy > c.cy <==> trig(AngleOf(index)).sin > 0.0)
    ensures d == 0.0 ==> n.cx == c.cx && n.cy == c.cy && n.r == 3.0 && n.opacity == 0.1
    ensures d == 1.0 ==> n.r == 8.0 && n.opacity == 0.5
    ensures d == 1.0 ==> n.cx == c.cx + 10.0 * trig(AngleOf(index)).cos
    ensures d == 1.0 ==> n.cy == c.cy + 10.0 * trig(AngleOf(index)).sin
  {
    var movement := d * 10.0;
    var dir := trig(AngleOf(index));
    ProductSign(dir.cos, movement);
    ProductSign(dir.sin, movement);
    Circle(c.cx + dir.cos * movement, c.cy + dir.sin * movement, 3.0 + d * 5.0, 0.1 + d * 0.4)
  }

  /** For a positive factor m, a * m is positive exactly when a is. */
  lemma ProductSign(a: real, m: real)
    ensures m > 0.0 ==> (a * m > 0.0 <==> a > 0.0)
  {
    if m > 0.0 && a <= 0.0 {
      assert a * m <= 0.0 * m;
    }
  }

  /** The spider: translation and scale (its rotation is not modelled). */
  datatype Spider = Spider(x: real, y: real, scale: real)

  function SpiderAt(d: real, deltaX: real, deltaY: real): (s: Spider)
    ensures 0.0 <= d <= 1.0 ==> 1.0 <= s.scale <= 1.3
    ensures d == 0.0 ==> s.scale == 1.0
    ensures d == 1.0 ==> s.scale == 1.3
    ensures s.x - 380.0 == deltaX / 10.0 && s.y - 280.0 == deltaY / 10.0
  {
    Spider(380.0 + deltaX * 0.1, 280.0 + deltaY * 0.1, 1.0 + d * 0.3)
  }

  /** Scale and opacity of the centre glyph and of each spiral line. */
  datatype Glyph = Glyph(scale: real, opacity: real)

  function CenterAt(d: real): (g: Glyph)
    ensures 0.0 <= d <= 1.0 ==> 1.0 <= g.scale <= 1.5 && 0.3 <= g.opacity <= 0.7
    ensures d == 0.0 ==> g.scale == 1.0 && g.opacity == 0.3
    ensures d == 1.0 ==> g.scale == 1.5 && g.opacity == 0.7
  {
    Glyph(1.0 + d * 0.5, 0.3 + d * 0.4)
  }

  function SpiralAt(d: real): (g: Glyph)
    ensures 0.0 <= d <= 1.0 ==> 1.0 <= g.scale <= 1.2 && 0.15 <= g.opacity <= 0.35
    ensures d == 0.0 ==> g.scale == 1.0 && g.opacity == 0.15
    ensures d == 1.0 ==> g.scale == 1.2 && g.opacity == 0.35
  {
    Glyph(1.0 + d * 0.2, 0.15 + d * 0.2)
  }

  /** Every attribute is affine in the distance: it interpolates linearly
      between its values at distance 0 and at distance 1. */
  lemma AttributesAffine(d: real, index: int, c: Circle, trig: int -> Direction)
    ensures LineAt(index, d, trig).reach == (1.0 - d) * LineAt(index, 0.0, trig).reach + d * LineAt(index, 1.0, trig).reach
    ensures LineAt(index, d, trig).opacity == (1.0 - d) * LineAt(index, 0.0, trig).opacity + d * LineAt(index, 1.0, trig).opacity
    ensures LineAt(index, d, trig).strokeWidth == (1.0 - d) * LineAt(index, 0.0, trig).strokeWidth + d * LineAt(index, 1.0, trig).strokeWidth
    ensures Drift(c, index, d, trig).r == (1.0 - d) * Drift(c, index, 0.0, trig).r + d * Drift(c, index, 1.0, trig).r
    ensures Drift(c, index, d, trig).opacity == (1.0 - d) * Drift(c, index, 0.0, trig).opacity + d * Drift(c, index, 1.0, trig).opacity
    ensures SpiderAt(d, 0.0, 0.0).scale == (1.0 - d) * SpiderAt(0.0, 0.0, 0.0).scale + d * SpiderAt(1.0, 0.0, 0.0).scale
    ensures CenterAt(d).scale == (1.0 - d) * CenterAt(0.0).scale + d * CenterAt(1.0).scale
    ensures CenterAt(d).opacity == (1.0 - d) * CenterAt(0.0).opacity + d * CenterAt(1.0).opacity
    ensures SpiralAt(d).scale == (1.0 - d) * SpiralAt(0.0).scale + d * SpiralAt(1.0).scale
    ensures SpiralAt(d).opacity == (1.0 - d) * SpiralAt(0.0).opacity + d * SpiralAt(1.0).opacity
  {
  }

  /** Every attribute grows with the normalised distance. */
  lemma AttributesMonotone(d1: real, d2: real, index: int, trig: int -> Direction)
    requires d1 <= d2
    ensures LineAt(index, d1, trig).reach <= LineAt(index, d2, trig).reach
    ensures LineAt(index, d1, trig).opacity <= LineAt(index, d2, trig).opacity
    ensures LineAt(index, d1, trig).strokeWidth <= LineAt(index, d2, trig).strokeWidth
    ensures SpiderAt(d1, 0.0, 0.0).scale <= SpiderAt(d2, 0.0, 0.0).scale
    ensures CenterAt(d1).scale <= CenterAt(d2).scale && CenterAt(d1).opacity <= CenterAt(d2).opacity
    ensures SpiralAt(d1).scale <= SpiralAt(d2).scale && SpiralAt(d1).opacity <= SpiralAt(d2).opacity
  {
  }

  /** The circles after one call, index by index. */
  function DriftAll(cs: seq<Circle>, d: real, trig: int -> Direction): (r: seq<Circle>)
    ensures |r| == |cs|
  {
    seq(|cs|, i requires 0 <= i < |cs| => Drift(cs[i], i, d, trig))
  }

  /** The circles after n identical calls. */
  function DriftTimes(cs: seq<Circle>, d: real, trig: int -> Direction, n: nat): (r: seq<Circle>)
    ensures |r| == |cs|
  {
    if n == 0 then cs else DriftAll(DriftTimes(cs, d, trig, n - 1), d, trig)
  }

  /** The drift is cumulative: after n identical calls circle i has moved by
      n times its per-call step along the direction of its angle. */
  lemma {:induction false} DriftAccumulates(cs: seq<Circle>, d: real, trig: int -> Direction, n: nat, i: nat)
    requires i < |cs|
    ensures DriftTimes(cs, d, trig, n)[i].cx ==
      cs[i].cx + n as real * (trig(AngleOf(i)).cos * (d * 10.0))
    ensures DriftTimes(cs, d, trig, n)[i].cy ==
      cs[i].cy + n as real * (trig(AngleOf(i)).sin * (d * 10.0))
  {
    if n > 0 {
      DriftAccumulates(cs, d, trig, n - 1, i);
      var dx, dy := trig(AngleOf(i)).cos * (d * 10.0), trig(AngleOf(i)).sin * (d * 10.0);
      assert (n - 1) as real * dx + dx == n as real * dx;
      assert (n - 1) as real * dy + dy == n as real * dy;
    }
  }

  /** A call with distance 0, as at initialisation, leaves every centre where
      it was. */
  lemma ZeroDistanceKeepsCentres(cs: seq<Circle>, trig: int -> Direction)
    ensures forall i :: 0 <= i < |cs| ==>
      DriftAll(cs, 0.0, trig)[i].cx == cs[i].cx && DriftAll(cs, 0.0, trig)[i].cy == cs[i].cy
  {
  }

  /** The graphic's elements. The spider and the centre glyph may be absent. */
  class Web {
    const lines: array<Line>
    const circles: array<Circle>
    const spirals: array<Glyph>
    const hasSpider: bool
    const hasCenter: bool
    var spider: Spider
    var center: Glyph

    constructor (lines0: seq<Line>, circles0: seq<Circle>, spirals0: seq<Glyph>,
                 hasSpider: bool, spider0: Spider, hasCenter: bool, center0: Glyph)
      ensures lines[..] == lines0 && circles[..] == circles0 && spirals[..] == spirals0
      ensures this.hasSpider == hasSpider && spider == spider0
      ensures this.hasCenter == hasCenter && center == center0
      ensures fresh(lines) && fresh(circles) && fresh(spirals)
    {
      lines := new Line[|lines0|](i requires 0 <= i < |lines0| => lines0[i]);
      circles := new Circle[|circles0|](i requires 0 <= i < |circles0| => circles0[i]);
      spirals := new Glyph[|spirals0|](i requires 0 <= i < |spirals0| => spirals0[i]);
      this.hasSpider := hasSpider;
      spider := spider0;
      this.hasCenter := hasCenter;
      center := center0;
    }

    /** updateWebElements(distance, deltaX, deltaY). */
    method Update(d: real, deltaX: real, deltaY: real, trig: int -> Direction)
      modifies this, lines, circles, spirals
      ensures forall i :: 0 <= i < lines.Length ==> lines[i] == LineAt(i, d, trig)
      ensures circles[..] == DriftAll(old(circles[..]), d, trig)
      ensures spider == if hasSpider then SpiderAt(d, deltaX, deltaY) else old(spider)
      ensures center == if hasCenter then CenterAt(d) else old(center)
      ensures forall i :: 0 <= i < spirals.Length ==> spirals[i] == SpiralAt(d)
    {
      for i := 0 to lines.Length
        modifies lines
        invariant forall j :: 0 <= j < i ==> lines[j] == LineAt(j, d, trig)
      {
        lines[i] := LineAt(i, d, trig);
      }
      for i := 0 to circles.Length
        modifies circles
        invariant forall j :: 0 <= j < i ==> circles[j] == Drift(old(circles[j]), j, d, trig)
        invariant forall j :: i <= j < circles.Length ==> circles[j] == old(circles[j])
      {
        circles[i] := Drift(circles[i], i, d, trig);
      }
      if hasSpider {
        spider := SpiderAt(d, deltaX, deltaY);
      }
      if hasCenter {
        center := CenterAt(d);
      }
      for i := 0 to spirals.Length
        modifies spirals
        invariant forall j :: 0 <= j < i ==> spirals[j] == SpiralAt(d)
      {
        spirals[i] := SpiralAt(d);
      }
    }

    /** The initial call updateWebElements(0, 0, 0): every centre stays where
        the markup put it. */
    method Initialize(trig: int -> Direction)
      modifies this, lines, circles, spirals
      ensures forall i :: 0 <= i < circles.Length ==>
        circles[i].cx == old(circles[i].cx) && circles[i].cy == old(circles[i].cy)
      ensures forall i :: 0 <= i < lines.Length ==> lines[i] == LineAt(i, 0.0, trig)
      ensures hasSpider ==> spider == Spider(380.0, 280.0, 1.0)
    {
      Update(0.0, 0.0, 0.0, trig);
    }

    /** The mousemove handler. `distance` and `maxDistance` are the square
        roots the handler computes: the pointer's distance from the viewport
        centre and the centre's distance from the corner. */
    method OnPointerMove(mouseX: real, mouseY: real, centerX: real, centerY: real,
                         distance: real, maxDistance: real, trig: int -> Direction)
      requires maxDistance > 0.0 && maxDistance * maxDistance == centerX * centerX + centerY * centerY
      requires distance >= 0.0
      requires distance * distance == (mouseX - centerX) * (mouseX - centerX) + (mouseY - centerY) * (mouseY - centerY)
      modifies this, lines, circles, spirals
      ensures circles[..] == DriftAll(old(circles[..]), NormalizedDistance(distance, maxDistance), trig)
      ensures forall i :: 0 <= i < lines.Length ==>
        lines[i] == LineAt(i, NormalizedDistance(distance, maxDistance), trig)
      ensures spider == if hasSpider then SpiderAt(NormalizedDistance(distance, maxDistance), mouseX - centerX, mouseY - centerY) else old(spider)
      ensures center == if hasCenter then CenterAt(NormalizedDistance(distance, maxDistance)) else old(center)
      ensures forall i :: 0 <= i < spirals.Length ==> spirals[i] == SpiralAt(NormalizedDistance(distance, maxDistance))
    {
      var n := NormalizedDistance(distance, maxDistance);
      Update(n, mouseX - centerX, mouseY - centerY, trig);
    }
  }
}
