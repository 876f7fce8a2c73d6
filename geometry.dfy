/** One bounding box as a value: the canonical xyxy 4-tuple with inclusive pixel corners,
    its conventions, its accessors and the closed-form transforms of the core. */
module Geometry {
  import opened Errors

  /** Canonical xyxy form: both corners are inside the box. */
  datatype Box = Box(x0: real, y0: real, x1: real, y1: real)

  /** The input coordinate conventions. */
  datatype Mode = XYXY | XYWH | CCWH

  function ModeName(m: Mode): string {
    match m
    case XYXY => "xyxy"
    case XYWH => "xywh"
    case CCWH => "ccwh"
  }

  /** The mode check of construction: exactly the three names are recognised. */
  function ParseMode(s: string): (r: Result<Mode>)
    ensures r.Ok? <==> s == "xyxy" || s == "xywh" || s == "ccwh"
    ensures r.Ok? ==> ModeName(r.value) == s
    ensures r.Err? ==> r.error == InvalidMode
  {
    if s == "xyxy" then Ok(XYXY)
    else if s == "xywh" then Ok(XYWH)
    else if s == "ccwh" then Ok(CCWH)
    else Err(InvalidMode)
  }

  /** Entry `j` of the 4-tuple, as the trailing axis of the buffer indexes it. */
  function Coord(b: Box, j: nat): real
    requires j < 4
  {
    if j == 0 then b.x0 else if j == 1 then b.y0 else if j == 2 then b.x1 else b.y1
  }

  /** The x-axis value for the even entries (x0, x1) and the y-axis value for the odd ones (y0, y1). */
  function Along(j: nat, x: real, y: real): real {
    if j % 2 == 0 then x else y
  }

  /** The half-pixel offset `scale` applies to entry `j`: low edges -0.5, high edges +0.5. */
  function EdgeHalf(j: nat): real {
    if j < 2 then -0.5 else 0.5
  }

  // ---------------------------------------------------------------- accessors

  /** Inclusive-pixel width and height. */
  function Width(b: Box): real { b.x1 - b.x0 + 1.0 }
  function Height(b: Box): real { b.y1 - b.y0 + 1.0 }

  /** `size`: counting the inclusive size on from the low corner reaches the high corner. */
  function Size(b: Box): (r: (real, real))
    ensures b.x0 + r.0 - 1.0 == b.x1 && b.y0 + r.1 - 1.0 == b.y1
  {
    (Width(b), Height(b))
  }

  /** `center`: equally far from both edges on each axis. */
  function Center(b: Box): (r: (real, real))
    ensures r.0 - b.x0 == b.x1 - r.0 && r.1 - b.y0 == b.y1 - r.1
  {
    ((b.x0 + b.x1) / 2.0, (b.y0 + b.y1) / 2.0)
  }

  /** `is_valid`: on both axes the high corner is above the low corner minus one pixel
      (x1 > x0 - 1, y1 > y0 - 1), so the inclusive size is positive. */
  predicate IsValid(b: Box): (r: bool)
    ensures r <==> b.x1 > b.x0 - 1.0 && b.y1 > b.y0 - 1.0
  {
    Width(b) > 0.0 && Height(b) > 0.0
  }

  /** Width times height times validity: a degenerate box has area 0, never a negative one. */
  function Area(b: Box): (r: real)
    ensures r >= 0.0
    ensures r > 0.0 <==> IsValid(b)
    ensures IsValid(b) ==> r == Width(b) * Height(b)
  {
    Width(b) * Height(b) * (if IsValid(b) then 1.0 else 0.0)
  }

  predicate Contains(b: Box, px: real, py: real) {
    b.x0 <= px <= b.x1 && b.y0 <= py <= b.y1
  }

  // ---------------------------------------------------------------- conventions

  /** `xywh` input (x0, y0, w, h): the box with that low corner and that inclusive size. */
  function FromXYWH(b: Box): (r: Box)
    ensures r.x0 == b.x0 && r.y0 == b.y0
    ensures Size(r) == (b.x1, b.y1)
  {
    Box(b.x0, b.y0, b.x1 + (b.x0 - 1.0), b.y1 + (b.y0 - 1.0))
  }

  /** The first step of `ccwh` conversion: (cx, cy, w, h) becomes (x0, y0, w, h), the low corner
      half an inclusive size below the center, the size kept. */
  function CornerFromCenter(b: Box): (r: Box)
    ensures r.x0 + (r.x1 - 1.0) / 2.0 == b.x0 && r.y0 + (r.y1 - 1.0) / 2.0 == b.y0
    ensures r.x1 == b.x1 && r.y1 == b.y1
  {
    Box(b.x0 - (b.x1 - 1.0) / 2.0, b.y0 - (b.y1 - 1.0) / 2.0, b.x1, b.y1)
  }

  /** `ccwh` input (cx, cy, w, h): the box with that center and that inclusive size. */
  function FromCCWH(b: Box): (r: Box)
    ensures Center(r) == (b.x0, b.y0)
    ensures Size(r) == (b.x1, b.y1)
  {
    FromXYWH(CornerFromCenter(b))
  }

  /** The xyxy box that a row given in mode `m` stands for. */
  function Canonical(m: Mode, b: Box): (r: Box)
    ensures m == XYXY ==> r == b
    ensures m == XYWH ==> r.x0 == b.x0 && r.y0 == b.y0
    ensures m == CCWH ==> Center(r) == (b.x0, b.y0)
    ensures m != XYXY ==> Size(r) == (b.x1, b.y1)
  {
    match m
    case XYXY => b
    case XYWH => FromXYWH(b)
    case CCWH => FromCCWH(b)
  }

  /** Building xywh from a box's own low corner and size gives the box back. */
  lemma XYWHRoundTrip(b: Box)
    ensures Canonical(XYWH, Box(b.x0, b.y0, Width(b), Height(b))) == b
  {
  }

  /** Building ccwh from a box's own center and size gives the box back. */
  lemma CCWHRoundTrip(b: Box)
    ensures Canonical(CCWH, Box(Center(b).0, Center(b).1, Width(b), Height(b))) == b
  {
  }

  // ---------------------------------------------------------------- translation

  /** `+=`: dx moves x0 and x1, dy moves y0 and y1. */
  function Translate(b: Box, dx: real, dy: real): (r: Box)
    ensures Size(r) == Size(b)
    ensures Center(r) == (Center(b).0 + dx, Center(b).1 + dy)
  {
    Box(b.x0 + dx, b.y0 + dy, b.x1 + dx, b.y1 + dy)
  }

  /** `-=`: the same offsets, subtracted. */
  function Untranslate(b: Box, dx: real, dy: real): (r: Box)
    ensures Size(r) == Size(b)
    ensures Center(r) == (Center(b).0 - dx, Center(b).1 - dy)
  {
    Box(b.x0 - dx, b.y0 - dy, b.x1 - dx, b.y1 - dy)
  }

  /** Construction's final step, `arr -= base`, re-bases every coordinate. */
  function Normalize(m: Mode, base: real, b: Box): (r: Box)
    ensures Translate(r, base, base) == Canonical(m, b)
    ensures Size(r) == Size(Canonical(m, b))
  {
    Untranslate(Canonical(m, b), base, base)
  }

  lemma TranslateRoundTrip(b: Box, dx: real, dy: real)
    ensures Untranslate(Translate(b, dx, dy), dx, dy) == b
  {
  }

  lemma TranslateCompose(b: Box, ax: real, ay: real, cx: real, cy: real)
    ensures Translate(Translate(b, ax, ay), cx, cy) == Translate(b, ax + cx, ay + cy)
  {
  }

  // ---------------------------------------------------------------- scaling

  /** One edge under `scale`: shifted by `half` onto the pixel boundary, scaled about `fp`, shifted back.
      Low edges use half = -0.5, high edges half = +0.5. */
  function ScaleEdge(v: real, half: real, k: real, fp: real): real {
    (v + half - fp) * k + fp - half
  }

  /** `scale`: every edge is scaled about the fixed point with the half-pixel offsets. */
  function Scale(b: Box, kx: real, ky: real, fpx: real, fpy: real): (r: Box)
    ensures Width(r) == Width(b) * kx
    ensures Height(r) == Height(b) * ky
    ensures Center(r).0 - fpx == (Center(b).0 - fpx) * kx && Center(r).1 - fpy == (Center(b).1 - fpy) * ky
  {
    var r := Box(ScaleEdge(b.x0, -0.5, kx, fpx), ScaleEdge(b.y0, -0.5, ky, fpy),
                 ScaleEdge(b.x1, 0.5, kx, fpx), ScaleEdge(b.y1, 0.5, ky, fpy));
    ScaledExtent(b.x0, b.x1, kx, fpx, r.x0, r.x1);
    ScaledExtent(b.y0, b.y1, ky, fpy, r.y0, r.y1);
    r
  }

  /** On one axis, the scaled inclusive extent is the old extent times the factor. */
  lemma ScaledExtent(lo: real, hi: real, k: real, fp: real, lo': real, hi': real)
    requires lo' == ScaleEdge(lo, -0.5, k, fp) && hi' == ScaleEdge(hi, 0.5, k, fp)
    ensures hi' - lo' + 1.0 == (hi - lo + 1.0) * k
  {
    calc {
      hi' - lo' + 1.0;
      (hi + 0.5 - fp) * k - (lo - 0.5 - fp) * k;
      ((hi + 0.5 - fp) - (lo - 0.5 - fp)) * k;
    }
  }

  lemma ScaleEdgeCompose(v: real, half: real, a: real, c: real, fp: real)
    ensures ScaleEdge(ScaleEdge(v, half, a, fp), half, c, fp) == ScaleEdge(v, half, a * c, fp)
  {
    calc {
      ScaleEdge(ScaleEdge(v, half, a, fp), half, c, fp);
      ((v + half - fp) * a) * c + fp - half;
      (v + half - fp) * (a * c) + fp - half;
    }
  }

  /** The fixed point of `*` and `/`. */
  const MulFixedPoint: real := -0.5

  function Mul(b: Box, kx: real, ky: real): (r: Box)
    ensures Width(r) == Width(b) * kx && Height(r) == Height(b) * ky
    ensures Center(r).0 + 0.5 == (Center(b).0 + 0.5) * kx && Center(r).1 + 0.5 == (Center(b).1 + 0.5) * ky
    ensures kx == 1.0 && ky == 1.0 ==> r == b
  {
    Scale(b, kx, ky, MulFixedPoint, MulFixedPoint)
  }

  /** `/` scales by the reciprocal factors. */
  function Div(b: Box, kx: real, ky: real): (r: Box)
    requires kx != 0.0 && ky != 0.0
    ensures Width(r) * kx == Width(b) && Height(r) * ky == Height(b)
    ensures (Center(r).0 + 0.5) * kx == Center(b).0 + 0.5 && (Center(r).1 + 0.5) * ky == Center(b).1 + 0.5
  {
    var r := Mul(b, 1.0 / kx, 1.0 / ky);
    assert Width(r) * kx == Width(b) * (1.0 / kx * kx);
    assert Height(r) * ky == Height(b) * (1.0 / ky * ky);
    r
  }

  /** Scaling twice about one fixed point is scaling once by the product of the factors. */
  lemma ScaleCompose(b: Box, ax: real, ay: real, cx: real, cy: real, fpx: real, fpy: real)
    ensures Scale(Scale(b, ax, ay, fpx, fpy), cx, cy, fpx, fpy) == Scale(b, ax * cx, ay * cy, fpx, fpy)
  {
    ScaleEdgeCompose(b.x0, -0.5, ax, cx, fpx);
    ScaleEdgeCompose(b.y0, -0.5, ay, cy, fpy);
    ScaleEdgeCompose(b.x1, 0.5, ax, cx, fpx);
    ScaleEdgeCompose(b.y1, 0.5, ay, cy, fpy);
  }

  lemma MulCompose(b: Box, ax: real, ay: real, cx: real, cy: real)
    ensures Mul(Mul(b, ax, ay), cx, cy) == Mul(b, ax * cx, ay * cy)
  {
    ScaleCompose(b, ax, ay, cx, cy, MulFixedPoint, MulFixedPoint);
  }

  lemma MulDivRoundTrip(b: Box, kx: real, ky: real)
    requires kx != 0.0 && ky != 0.0
    ensures Div(Mul(b, kx, ky), kx, ky) == b
  {
    MulCompose(b, kx, ky, 1.0 / kx, 1.0 / ky);
  }

  // ---------------------------------------------------------------- intersection and IoU

  function Max(a: real, b: real): real { if a >= b then a else b }
  function Min(a: real, b: real): real { if a <= b then a else b }

  /** Corner-wise order of boxes: `c`'s low corner is at or above `a`'s and its high corner at or
      below `a`'s. Unlike `Contains`, this also orders the degenerate boxes `&` can produce. */
  predicate Within(c: Box, a: Box) {
    a.x0 <= c.x0 && a.y0 <= c.y0 && c.x1 <= a.x1 && c.y1 <= a.y1
  }

  /** `&`: the larger low corner and the smaller high corner, which makes it the greatest box
      within both, whether or not the two overlap. */
  function Intersect(a: Box, b: Box): (r: Box)
    ensures forall px, py :: Contains(r, px, py) <==> Contains(a, px, py) && Contains(b, px, py)
    ensures forall c :: Within(c, r) <==> Within(c, a) && Within(c, b)
  {
    Box(Max(a.x0, b.x0), Max(a.y0, b.y0), Min(a.x1, b.x1), Min(a.y1, b.y1))
  }

  lemma IntersectCommutes(a: Box, b: Box)
    ensures Intersect(a, b) == Intersect(b, a)
  {
  }

  lemma IntersectSelf(b: Box)
    ensures Intersect(b, b) == b
  {
  }

  /** The intersection is never larger than either box. */
  lemma IntersectAreaBound(a: Box, b: Box)
    ensures Area(Intersect(a, b)) <= Area(a)
    ensures Area(Intersect(a, b)) <= Area(b)
  {
    var c := Intersect(a, b);
    if IsValid(c) {
      assert 0.0 < Width(c) <= Width(a) && 0.0 < Height(c) <= Height(a);
      assert 0.0 < Width(c) <= Width(b) && 0.0 < Height(c) <= Height(b);
      MulMonotone(Width(c), Height(c), Width(a), Height(a));
      MulMonotone(Width(c), Height(c), Width(b), Height(b));
    }
  }

  lemma MulMonotone(w: real, h: real, w': real, h': real)
    requires 0.0 < w <= w' && 0.0 < h <= h'
    ensures w * h <= w' * h'
  {
    assert w * h <= w' * h;
  }

  /** The IoU denominator: the area of the union. */
  function UnionArea(a: Box, b: Box): (r: real)
    ensures Area(a) <= r && Area(b) <= r && r <= Area(a) + Area(b)
  {
    IntersectAreaBound(a, b);
    Area(a) + Area(b) - Area(Intersect(a, b))
  }

  predicate IoUDefined(a: Box, b: Box) {
    UnionArea(a, b) != 0.0
  }

  /** The union is empty exactly when both boxes are degenerate. */
  lemma IoUDefinedIff(a: Box, b: Box)
    ensures IoUDefined(a, b) <==> IsValid(a) || IsValid(b)
  {
    IntersectAreaBound(a, b);
  }

  function IoU(a: Box, b: Box): (r: real)
    requires IoUDefined(a, b)
    ensures 0.0 <= r <= 1.0
  {
    IntersectAreaBound(a, b);
    RatioBound(Area(Intersect(a, b)), UnionArea(a, b));
    Area(Intersect(a, b)) / UnionArea(a, b)
  }

  /** A part over a whole that contains it is a fraction between 0 and 1. */
  lemma RatioBound(part: real, whole: real)
    requires 0.0 <= part <= whole && whole != 0.0
    ensures 0.0 <= part / whole <= 1.0
  {
    assert part / whole * whole == part;
  }

  lemma IoUSelf(b: Box)
    requires Area(b) > 0.0
    ensures IoUDefined(b, b) && IoU(b, b) == 1.0
  {
    IntersectSelf(b);
    var a := Area(b);
    assert UnionArea(b, b) == a;
    assert IoU(b, b) == a / a;
  }

  lemma IoUCommutes(a: Box, b: Box)
    requires IoUDefined(a, b)
    ensures IoUDefined(b, a) && IoU(a, b) == IoU(b, a)
  {
    IntersectCommutes(a, b);
  }

  /** Boxes whose intersection is degenerate do not overlap at all. */
  lemma IoUDisjoint(a: Box, b: Box)
    requires IoUDefined(a, b) && !IsValid(Intersect(a, b))
    ensures IoU(a, b) == 0.0
  {
  }

  // ---------------------------------------------------------------- image bounds

  /** numpy's `clip`: at least `lo`, then at most `hi`. */
  function Clip(v: real, lo: real, hi: real): (r: real)
    ensures lo <= hi ==> lo <= r <= hi
    ensures lo <= v <= hi ==> r == v
    ensures lo <= hi && v < lo ==> r == lo
    ensures lo <= hi && v > hi ==> r == hi
    ensures hi < lo ==> r == hi
  {
    Min(Max(v, lo), hi)
  }

  /** The image of size (w, h) as a box: pixels 0 .. w-1 and 0 .. h-1. */
  function Image(w: real, h: real): Box {
    Box(0.0, 0.0, w - 1.0, h - 1.0)
  }

  /** `is_inside`: both corners of the box lie in the image. */
  predicate IsInside(b: Box, w: real, h: real): (r: bool)
    ensures r <==> Contains(Image(w, h), b.x0, b.y0) && Contains(Image(w, h), b.x1, b.y1)
  {
    0.0 <= b.x0 <= w - 1.0 && 0.0 <= b.y0 <= h - 1.0 &&
    0.0 <= b.x1 <= w - 1.0 && 0.0 <= b.y1 <= h - 1.0
  }

  /** `rectify`: x coordinates clipped to [0, w-1], y coordinates to [0, h-1]. */
  function Rectify(b: Box, w: real, h: real): (r: Box)
    ensures w >= 1.0 && h >= 1.0 ==> IsInside(r, w, h)
    ensures IsInside(b, w, h) ==> r == b
  {
    Box(Clip(b.x0, 0.0, w - 1.0), Clip(b.y0, 0.0, h - 1.0),
        Clip(b.x1, 0.0, w - 1.0), Clip(b.y1, 0.0, h - 1.0))
  }

  /** For an image of at least one pixel, a box inside it is exactly a box that rectify leaves unchanged. */
  lemma RectifyFixesInside(b: Box, w: real, h: real)
    requires w >= 1.0 && h >= 1.0
    ensures IsInside(b, w, h) <==> Rectify(b, w, h) == b
  {
  }

  lemma RectifyIdempotent(b: Box, w: real, h: real)
    ensures Rectify(Rectify(b, w, h), w, h) == Rectify(b, w, h)
  {
  }
}
