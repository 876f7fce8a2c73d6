/** The batched box type: a buffer of n rows of 4 coordinates, held by reference, and the
    operators that read it, copy it or change it in place. */
module BBoxes {
  import opened Errors
  import opened Utils
  import opened Geometry
  import opened Batch
  import Stacking

  /** The boxes held in the rows of a buffer whose trailing dimension is 4. */
  function RowsOf(a: array2<real>): (r: seq<Box>)
    requires a.Length1 == 4
    reads a
    ensures |r| == a.Length0
    ensures forall i :: 0 <= i < a.Length0 ==> r[i] == Box(a[i, 0], a[i, 1], a[i, 2], a[i, 3])
  {
    seq(a.Length0, i requires 0 <= i < a.Length0 reads a => Box(a[i, 0], a[i, 1], a[i, 2], a[i, 3]))
  }

  /** An independent copy of a buffer (numpy's `copy`). */
  method CopyBuffer(a: array2<real>) returns (c: array2<real>)
    ensures fresh(c) && c.Length0 == a.Length0 && c.Length1 == a.Length1
    ensures forall i, j :: 0 <= i < a.Length0 && 0 <= j < a.Length1 ==> c[i, j] == a[i, j]
  {
    c := new real[a.Length0, a.Length1];
    forall i, j | 0 <= i < a.Length0 && 0 <= j < a.Length1 {
      c[i, j] := a[i, j];
    }
  }

  /** A fresh buffer holding the given boxes, one per row. */
  method BufferOf(bs: seq<Box>) returns (c: array2<real>)
    ensures fresh(c) && c.Length1 == 4 && RowsOf(c) == bs
  {
    c := new real[|bs|, 4];
    forall i, j | 0 <= i < |bs| && 0 <= j < 4 {
      c[i, j] := Coord(bs[i], j);
    }
  }

  /** `arr[..., 2:] += arr[..., :2] - 1`: rows read as (x0, y0, w, h) become xyxy. */
  method XYWHInPlace(buf: array2<real>)
    requires buf.Length1 == 4
    modifies buf
    ensures RowsOf(buf) == Map(FromXYWH, old(RowsOf(buf)))
  {
    ghost var rows := RowsOf(buf);
    forall i, j | 0 <= i < buf.Length0 && 2 <= j < 4 {
      buf[i, j] := buf[i, j] + (buf[i, j - 2] - 1.0);
    }
    forall i | 0 <= i < buf.Length0
      ensures RowsOf(buf)[i] == FromXYWH(rows[i])
    {
      assert buf[i, 0] == rows[i].x0 && buf[i, 1] == rows[i].y0;
      assert buf[i, 2] == rows[i].x1 + (rows[i].x0 - 1.0) && buf[i, 3] == rows[i].y1 + (rows[i].y0 - 1.0);
    }
  }

  /** `arr[..., :2] -= (arr[..., 2:] - 1) / 2`: rows read as (cx, cy, w, h) become (x0, y0, w, h). */
  method CornerFromCenterInPlace(buf: array2<real>)
    requires buf.Length1 == 4
    modifies buf
    ensures RowsOf(buf) == Map(CornerFromCenter, old(RowsOf(buf)))
  {
    ghost var rows := RowsOf(buf);
    forall i, j | 0 <= i < buf.Length0 && 0 <= j < 2 {
      buf[i, j] := buf[i, j] - (buf[i, j + 2] - 1.0) / 2.0;
    }
    forall i | 0 <= i < buf.Length0
      ensures RowsOf(buf)[i] == CornerFromCenter(rows[i])
    {
      assert buf[i, 0] == rows[i].x0 - (rows[i].x1 - 1.0) / 2.0 && buf[i, 1] == rows[i].y0 - (rows[i].y1 - 1.0) / 2.0;
      assert buf[i, 2] == rows[i].x1 && buf[i, 3] == rows[i].y1;
    }
  }

  /** The `ccwh` branch: the center step, then the `xywh` step. */
  method CCWHInPlace(buf: array2<real>)
    requires buf.Length1 == 4
    modifies buf
    ensures RowsOf(buf) == Map(FromCCWH, old(RowsOf(buf)))
  {
    ghost var rows := RowsOf(buf);
    CornerFromCenterInPlace(buf);
    XYWHInPlace(buf);
    assert RowsOf(buf) == Map(FromXYWH, Map(CornerFromCenter, rows));
  }

  /** `arr -= base`. */
  method SubtractInPlace(buf: array2<real>, base: real)
    requires buf.Length1 == 4
    modifies buf
    ensures RowsOf(buf) == UntranslateAll(old(RowsOf(buf)), base, base)
  {
    ghost var rows := RowsOf(buf);
    forall i, j | 0 <= i < buf.Length0 && 0 <= j < 4 {
      buf[i, j] := buf[i, j] - base;
    }
    forall i | 0 <= i < buf.Length0
      ensures RowsOf(buf)[i] == Untranslate(rows[i], base, base)
    {
      assert buf[i, 0] == rows[i].x0 - base && buf[i, 1] == rows[i].y0 - base;
      assert buf[i, 2] == rows[i].x1 - base && buf[i, 3] == rows[i].y1 - base;
    }
  }

  /** `[..., 0::2] += dx` then `[..., 1::2] += dy`: the two statements touch disjoint columns, so they
      are one parallel update here, columns 0 and 2 moved by dx and columns 1 and 3 by dy. */
  method TranslateBuffer(buf: array2<real>, dx: real, dy: real)
    requires buf.Length1 == 4
    modifies buf
    ensures RowsOf(buf) == TranslateAll(old(RowsOf(buf)), dx, dy)
  {
    ghost var rows := RowsOf(buf);
    forall i, j | 0 <= i < buf.Length0 && 0 <= j < 4 {
      buf[i, j] := buf[i, j] + Along(j, dx, dy);
    }
    forall i | 0 <= i < buf.Length0
      ensures RowsOf(buf)[i] == Translate(rows[i], dx, dy)
    {
      assert buf[i, 0] == rows[i].x0 + dx && buf[i, 1] == rows[i].y0 + dy;
      assert buf[i, 2] == rows[i].x1 + dx && buf[i, 3] == rows[i].y1 + dy;
    }
  }

  /** `[..., 0::2] -= dx` then `[..., 1::2] -= dy`, as one parallel update. */
  method UntranslateBuffer(buf: array2<real>, dx: real, dy: real)
    requires buf.Length1 == 4
    modifies buf
    ensures RowsOf(buf) == UntranslateAll(old(RowsOf(buf)), dx, dy)
  {
    ghost var rows := RowsOf(buf);
    forall i, j | 0 <= i < buf.Length0 && 0 <= j < 4 {
      buf[i, j] := buf[i, j] - Along(j, dx, dy);
    }
    forall i | 0 <= i < buf.Length0
      ensures RowsOf(buf)[i] == Untranslate(rows[i], dx, dy)
    {
      assert buf[i, 0] == rows[i].x0 - dx && buf[i, 1] == rows[i].y0 - dy;
      assert buf[i, 2] == rows[i].x1 - dx && buf[i, 3] == rows[i].y1 - dy;
    }
  }

  /** The four column assignments of `scale`; each column is computed from itself only, so they are
      one parallel update here, with each column's half-pixel offset, factor and fixed point. */
  method ScaleBuffer(buf: array2<real>, kx: real, ky: real, fpx: real, fpy: real)
    requires buf.Length1 == 4
    modifies buf
    ensures RowsOf(buf) == ScaleAll(old(RowsOf(buf)), kx, ky, fpx, fpy)
  {
    ghost var rows := RowsOf(buf);
    forall i, j | 0 <= i < buf.Length0 && 0 <= j < 4 {
      buf[i, j] := ScaleEdge(buf[i, j], EdgeHalf(j), Along(j, kx, ky), Along(j, fpx, fpy));
    }
    forall i | 0 <= i < buf.Length0
      ensures RowsOf(buf)[i] == Geometry.Scale(rows[i], kx, ky, fpx, fpy)
    {
      assert buf[i, 0] == ScaleEdge(rows[i].x0, -0.5, kx, fpx) && buf[i, 1] == ScaleEdge(rows[i].y0, -0.5, ky, fpy);
      assert buf[i, 2] == ScaleEdge(rows[i].x1, 0.5, kx, fpx) && buf[i, 3] == ScaleEdge(rows[i].y1, 0.5, ky, fpy);
    }
  }

  /** Construction's conversion to xyxy followed by `arr -= base`, in place. */
  method NormalizeInPlace(buf: array2<real>, m: Mode, base: real)
    requires buf.Length1 == 4
    modifies buf
    ensures RowsOf(buf) == NormalizeAll(m, base, old(RowsOf(buf)))
  {
    if m == XYWH {
      XYWHInPlace(buf);
    } else if m == CCWH {
      CCWHInPlace(buf);
    }
    SubtractInPlace(buf, base);
    NormalizeSplit(m, base, old(RowsOf(buf)));
  }

  /** A convenience corollary that unfolds `NormalizeAll` into construction's two steps,
      conversion and re-basing, in the form `NormalizeInPlace` applies them. */
  lemma NormalizeSplit(m: Mode, base: real, bs: seq<Box>)
    ensures NormalizeAll(m, base, bs) ==
      UntranslateAll(if m == XYWH then Map(FromXYWH, bs) else if m == CCWH then Map(FromCCWH, bs) else bs, base, base)
  {
  }

  class BBox {
    /** The coordinate buffer: row i is box i in canonical xyxy order. It may be the caller's own array. */
    const xyxy: array2<real>

    ghost predicate Valid() {
      xyxy.Length1 == 4
    }

    /** The batch, as values. */
    function Boxes(): seq<Box>
      requires Valid()
      reads xyxy
    {
      RowsOf(xyxy)
    }

    /** Wraps a buffer without converting or copying it. */
    constructor Wrap(buf: array2<real>)
      requires buf.Length1 == 4
      ensures xyxy == buf && Valid()
    {
      xyxy := buf;
    }

    /** Construction: validate the mode, copy the input if asked to, validate the trailing
        dimension, convert the rows to xyxy in place and subtract `base` from every coordinate.
        Without `copy` the stored buffer is the caller's array, so the caller sees the conversion. */
    static method Create(arr: array2<real>, mode: string, base: real, copy: bool) returns (r: Result<BBox>)
      modifies if copy then {} else {arr}
      ensures r.Ok? <==> ParseMode(mode).Ok? && arr.Length1 == 4
      ensures ParseMode(mode).Err? ==> r == Err(InvalidMode)
      ensures ParseMode(mode).Ok? && arr.Length1 != 4 ==> r == Err(BadShape(arr.Length0, arr.Length1))
      ensures r.Err? || copy ==> unchanged(arr)
      ensures r.Ok? ==> fresh(r.value) && r.value.Valid() && arr.Length1 == 4
      ensures r.Ok? ==> r.value.Boxes() == NormalizeAll(ParseMode(mode).value, base, old(RowsOf(arr)))
      ensures r.Ok? && copy ==> fresh(r.value.xyxy)
      ensures r.Ok? && !copy ==> r.value.xyxy == arr
    {
      var pm := ParseMode(mode);
      if pm.Err? {
        return Err(InvalidMode);
      }
      var buf := arr;
      if copy {
        buf := CopyBuffer(arr);
      }
      if buf.Length1 != 4 {
        return Err(BadShape(arr.Length0, arr.Length1));
      }
      NormalizeInPlace(buf, pm.value, base);
      var bb := new BBox.Wrap(buf);
      r := Ok(bb);
    }

    // ------------------------------------------------------------ accessors

    /** `shape`: the batch shape, without the trailing coordinate axis. */
    function Shape(): (s: seq<nat>)
      requires Valid()
      reads xyxy
      ensures |s| == 1 && s[0] == |Boxes()|
    {
      [xyxy.Length0]
    }

    /** `ndim`: the batch rank. */
    function NDim(): (d: nat)
      requires Valid()
      reads xyxy
      ensures d == |Shape()|
    {
      1
    }

    /** `__len__`: the length of the first batch axis. */
    function Len(): (n: nat)
      requires Valid()
      reads xyxy
      ensures n == |Boxes()| == Shape()[0]
    {
      xyxy.Length0
    }

    /** `_x0`, `_y0`, `_x1`, `_y1`: coordinate `j` of every box. */
    function Column(j: nat): (r: seq<real>)
      requires Valid() && j < 4
      reads xyxy
      ensures |r| == |Boxes()|
      ensures forall i :: 0 <= i < |r| ==> r[i] == Coord(Boxes()[i], j)
    {
      seq(xyxy.Length0, i requires 0 <= i < xyxy.Length0 reads xyxy => xyxy[i, j])
    }

    /** `center`: the center of every box. */
    function Centers(): (r: seq<(real, real)>)
      requires Valid()
      reads xyxy
      ensures |r| == |Boxes()|
      ensures forall i :: 0 <= i < |r| ==> Canonical(CCWH, Box(r[i].0, r[i].1, Width(Boxes()[i]), Height(Boxes()[i]))) == Boxes()[i]
    {
      var r := Map(Center, Boxes());
      forall i | 0 <= i < |r| {
        CCWHRoundTrip(Boxes()[i]);
      }
      r
    }

    /** `size`: the inclusive width and height of every box. */
    function Sizes(): (r: seq<(real, real)>)
      requires Valid()
      reads xyxy
      ensures |r| == |Boxes()|
      ensures forall i :: 0 <= i < |r| ==> Canonical(XYWH, Box(Boxes()[i].x0, Boxes()[i].y0, r[i].0, r[i].1)) == Boxes()[i]
    {
      var r := Map(Size, Boxes());
      forall i | 0 <= i < |r| {
        XYWHRoundTrip(Boxes()[i]);
      }
      r
    }

    /** `is_valid`: whether each box has a positive width and height. */
    function Validity(): (r: seq<bool>)
      requires Valid()
      reads xyxy
      ensures |r| == |Boxes()|
      ensures forall i :: 0 <= i < |r| ==> (r[i] <==> Width(Boxes()[i]) > 0.0 && Height(Boxes()[i]) > 0.0)
    {
      Map(IsValid, Boxes())
    }

    /** `area`: never negative, and positive exactly for the valid boxes. */
    function Areas(): (r: seq<real>)
      requires Valid()
      reads xyxy
      ensures |r| == |Boxes()|
      ensures forall i :: 0 <= i < |r| ==> r[i] == Area(Boxes()[i])
      ensures forall i :: 0 <= i < |r| ==> r[i] >= 0.0 && (r[i] > 0.0 <==> Validity()[i])
      ensures forall i :: 0 <= i < |r| && Validity()[i] ==> r[i] == Width(Boxes()[i]) * Height(Boxes()[i])
    {
      Map(Area, Boxes())
    }

    // ------------------------------------------------------------ copying and indexing

    /** `__copy__`: construction from this buffer with `copy=True`, mode xyxy and base 0. */
    method Copy() returns (c: BBox)
      requires Valid()
      ensures fresh(c) && fresh(c.xyxy) && c.Valid()
      ensures c.Boxes() == Boxes()
    {
      NormalizeIdentity(Boxes());
      var r := Create(xyxy, "xyxy", 0.0, true);
      c := r.value;
    }

    /** `__getitem__` with an integer: the box at that position; negative positions count from the end. */
    function Get(i: int): (r: Result<Box>)
      requires Valid()
      reads xyxy
      ensures r.Ok? <==> Index(i, Len()).Ok?
      ensures r.Ok? ==> r.value == Boxes()[Index(i, Len()).value]
      ensures r.Err? ==> r.error == IndexOutOfRange(i, Len())
    {
      match Index(i, Len())
      case Err(e) => Err(e)
      case Ok(k) => Ok(Box(xyxy[k, 0], xyxy[k, 1], xyxy[k, 2], xyxy[k, 3]))
    }

    /** `__getitem__` with a slice `lo:hi`: the selected boxes, as a new batch. */
    method GetRange(lo: int, hi: int) returns (c: BBox)
      requires Valid()
      ensures fresh(c) && fresh(c.xyxy) && c.Valid()
      ensures var (start, stop) := SliceRange(lo, hi, Len()); c.Boxes() == Boxes()[start..stop]
    {
      var (start, stop) := SliceRange(lo, hi, Len());
      var buf := BufferOf(Boxes()[start..stop]);
      c := new BBox.Wrap(buf);
    }

    /** `__setitem__` with an integer: overwrite that one box in place. */
    method SetItem(i: int, v: Box) returns (o: Outcome)
      requires Valid()
      modifies xyxy
      ensures Index(i, Len()).Err? ==> o == Fail(IndexOutOfRange(i, Len())) && unchanged(xyxy)
      ensures Index(i, Len()).Ok? ==> o == Pass && Boxes() == old(Boxes())[Index(i, Len()).value := v]
    {
      match Index(i, Len()) {
        case Err(e) =>
          o := Fail(e);
        case Ok(k) =>
          forall j | 0 <= j < 4 {
            xyxy[k, j] := Coord(v, j);
          }
          o := Pass;
      }
    }

    /** `__setitem__` with a slice `lo:hi`: write `vs` into the selected rows in place; a single row
        is broadcast to all of them, any other length mismatch is an error. */
    method SetRange(lo: int, hi: int, vs: seq<Box>) returns (o: Outcome)
      requires Valid()
      modifies xyxy
      ensures var (start, stop) := SliceRange(lo, hi, Len());
        if |vs| == stop - start || |vs| == 1 then
          o == Pass && Boxes() == Assign(old(Boxes()), start, stop, vs)
        else
          o == Fail(BroadcastMismatch(|vs|, stop - start)) && unchanged(xyxy)
    {
      var (start, stop) := SliceRange(lo, hi, Len());
      if !(|vs| == stop - start || |vs| == 1) {
        return Fail(BroadcastMismatch(|vs|, stop - start));
      }
      ghost var before := Boxes();
      var rows := Broadcast(vs, stop - start);
      forall k, j | start <= k < stop && 0 <= j < 4 {
        xyxy[k, j] := Coord(rows[k - start], j);
      }
      ghost var after := Assign(before, start, stop, vs);
      forall k | 0 <= k < xyxy.Length0
        ensures Boxes()[k] == after[k]
      {
        if start <= k < stop {
          assert after[k] == rows[k - start];
        } else {
          assert k < start ==> after[k] == after[..start][k];
          assert k >= stop ==> after[k] == after[stop..][k - stop];
        }
      }
      o := Pass;
    }

    // ------------------------------------------------------------ translation

    /** `+=`: add dx to x0 and x1 and dy to y0 and y1 of every box, in place. */
    method TranslateInPlace(point: Pairable) returns (o: Outcome)
      requires Valid()
      modifies xyxy
      ensures Pair(point).Err? ==> o == Fail(Pair(point).error) && unchanged(xyxy)
      ensures Pair(point).Ok? ==>
        o == Pass && Boxes() == TranslateAll(old(Boxes()), Pair(point).value.0, Pair(point).value.1)
    {
      match Pair(point) {
        case Err(e) =>
          o := Fail(e);
        case Ok(d) =>
          TranslateBuffer(xyxy, d.0, d.1);
          o := Pass;
      }
    }

    /** `-=`: subtract dx from x0 and x1 and dy from y0 and y1 of every box, in place. */
    method UntranslateInPlace(point: Pairable) returns (o: Outcome)
      requires Valid()
      modifies xyxy
      ensures Pair(point).Err? ==> o == Fail(Pair(point).error) && unchanged(xyxy)
      ensures Pair(point).Ok? ==>
        o == Pass && Boxes() == UntranslateAll(old(Boxes()), Pair(point).value.0, Pair(point).value.1)
    {
      match Pair(point) {
        case Err(e) =>
          o := Fail(e);
        case Ok(d) =>
          UntranslateBuffer(xyxy, d.0, d.1);
          o := Pass;
      }
    }

    /** `+`: a translated copy; this batch is not changed. */
    method Translated(point: Pairable) returns (r: Result<BBox>)
      requires Valid()
      ensures Pair(point).Err? ==> r == Err(Pair(point).error)
      ensures Pair(point).Ok? ==> (r.Ok? && fresh(r.value) && fresh(r.value.xyxy) && r.value.Valid() &&
        r.value.Boxes() == TranslateAll(Boxes(), Pair(point).value.0, Pair(point).value.1))
    {
      var bb := Copy();
      var o := bb.TranslateInPlace(point);
      r := if o.Fail? then Err(o.error) else Ok(bb);
    }

    /** `-`: an untranslated copy; this batch is not changed. */
    method Untranslated(point: Pairable) returns (r: Result<BBox>)
      requires Valid()
      ensures Pair(point).Err? ==> r == Err(Pair(point).error)
      ensures Pair(point).Ok? ==> (r.Ok? && fresh(r.value) && fresh(r.value.xyxy) && r.value.Valid() &&
        r.value.Boxes() == UntranslateAll(Boxes(), Pair(point).value.0, Pair(point).value.1))
    {
      var bb := Copy();
      var o := bb.UntranslateInPlace(point);
      r := if o.Fail? then Err(o.error) else Ok(bb);
    }

    // ------------------------------------------------------------ scaling

    /** `scale`: scale every box about `fixedPoint`; in place (returning this batch) or on a copy. */
    method Scale(factor: Pairable, fixedPoint: Pairable, inplace: bool) returns (r: Result<BBox>)
      requires Valid()
      modifies if inplace then {xyxy} else {}
      ensures Pair(factor).Err? ==> r == Err(Pair(factor).error)
      ensures Pair(factor).Ok? && Pair(fixedPoint).Err? ==> r == Err(Pair(fixedPoint).error)
      ensures r.Err? || !inplace ==> unchanged(xyxy)
      ensures r.Ok? <==> Pair(factor).Ok? && Pair(fixedPoint).Ok?
      ensures r.Ok? ==> r.value.Valid() && (if inplace then r.value == this else fresh(r.value) && fresh(r.value.xyxy))
      ensures r.Ok? ==> var (k, fp) := (Pair(factor).value, Pair(fixedPoint).value);
        r.value.Boxes() == ScaleAll(old(Boxes()), k.0, k.1, fp.0, fp.1)
    {
      var pk := Pair(factor);
      if pk.Err? {
        return Err(pk.error);
      }
      var pf := Pair(fixedPoint);
      if pf.Err? {
        return Err(pf.error);
      }
      var (kx, ky) := pk.value;
      var (fpx, fpy) := pf.value;
      var bb: BBox;
      if inplace {
        bb := this;
      } else {
        bb := Copy();
      }
      ScaleBuffer(bb.xyxy, kx, ky, fpx, fpy);
      r := Ok(bb);
    }

    /** `*=`: scale in place about the fixed point -0.5. */
    method MulInPlace(factor: Pairable) returns (o: Outcome)
      requires Valid()
      modifies xyxy
      ensures Pair(factor).Err? ==> o == Fail(Pair(factor).error) && unchanged(xyxy)
      ensures Pair(factor).Ok? ==>
        o == Pass && Boxes() == MulAll(old(Boxes()), Pair(factor).value.0, Pair(factor).value.1)
    {
      var r := Scale(factor, Scalar(MulFixedPoint), true);
      o := if r.Err? then Fail(r.error) else Pass;
    }

    /** `*`: a scaled copy; this batch is not changed. */
    method Multiplied(factor: Pairable) returns (r: Result<BBox>)
      requires Valid()
      ensures Pair(factor).Err? ==> r == Err(Pair(factor).error)
      ensures Pair(factor).Ok? ==> (r.Ok? && fresh(r.value) && fresh(r.value.xyxy) && r.value.Valid() &&
        r.value.Boxes() == MulAll(Boxes(), Pair(factor).value.0, Pair(factor).value.1))
    {
      var bb := Copy();
      var o := bb.MulInPlace(factor);
      r := if o.Fail? then Err(o.error) else Ok(bb);
    }

    /** `/=`: scale in place by the reciprocal factors; a zero factor is an error. */
    method DivInPlace(factor: Pairable) returns (o: Outcome)
      requires Valid()
      modifies xyxy
      ensures Pair(factor).Err? ==> o == Fail(Pair(factor).error) && unchanged(xyxy)
      ensures Pair(factor).Ok? && (Pair(factor).value.0 == 0.0 || Pair(factor).value.1 == 0.0) ==>
        o == Fail(DivisionByZero) && unchanged(xyxy)
      ensures Pair(factor).Ok? && Pair(factor).value.0 != 0.0 && Pair(factor).value.1 != 0.0 ==>
        o == Pass && Boxes() == MulAll(old(Boxes()), 1.0 / Pair(factor).value.0, 1.0 / Pair(factor).value.1)
    {
      var pk := Pair(factor);
      if pk.Err? {
        return Fail(pk.error);
      }
      var (kx, ky) := pk.value;
      if kx == 0.0 || ky == 0.0 {
        return Fail(DivisionByZero);
      }
      o := MulInPlace(FromPair((1.0 / kx, 1.0 / ky)));
    }

    /** `/`: a copy scaled by the reciprocal factors; this batch is not changed. */
    method Divided(factor: Pairable) returns (r: Result<BBox>)
      requires Valid()
      ensures Pair(factor).Err? ==> r == Err(Pair(factor).error)
      ensures Pair(factor).Ok? && (Pair(factor).value.0 == 0.0 || Pair(factor).value.1 == 0.0) ==>
        r == Err(DivisionByZero)
      ensures Pair(factor).Ok? && Pair(factor).value.0 != 0.0 && Pair(factor).value.1 != 0.0 ==>
        r.Ok? && fresh(r.value) && fresh(r.value.xyxy) && r.value.Valid() &&
        r.value.Boxes() == MulAll(Boxes(), 1.0 / Pair(factor).value.0, 1.0 / Pair(factor).value.1)
    {
      var bb := Copy();
      var o := bb.DivInPlace(factor);
      r := if o.Fail? then Err(o.error) else Ok(bb);
    }

    // ------------------------------------------------------------ intersection, IoU, image bounds

    /** `&`: the elementwise intersection, as a new batch; the batches are broadcast against each other. */
    method Intersect(other: BBox) returns (r: Result<BBox>)
      requires Valid() && other.Valid()
      ensures Pairs(Boxes(), other.Boxes()).Err? ==> r == Err(Pairs(Boxes(), other.Boxes()).error)
      ensures Pairs(Boxes(), other.Boxes()).Ok? ==> (r.Ok? && fresh(r.value) && fresh(r.value.xyxy) &&
        r.value.Valid() && r.value.Boxes() == IntersectAll(Pairs(Boxes(), other.Boxes()).value))
    {
      var ps := Pairs(Boxes(), other.Boxes());
      if ps.Err? {
        return Err(ps.error);
      }
      var buf := BufferOf(IntersectAll(ps.value));
      var bb := new BBox.Wrap(buf);
      r := Ok(bb);
    }

    /** `IoU`: the elementwise intersection over union, between 0 and 1. */
    function IoU(other: BBox): (r: Result<seq<real>>)
      requires Valid() && other.Valid()
      requires Pairs(Boxes(), other.Boxes()).Ok? ==> AllIoUDefined(Pairs(Boxes(), other.Boxes()).value)
      reads xyxy, other.xyxy
      ensures r.Ok? <==> Pairs(Boxes(), other.Boxes()).Ok?
      ensures r.Ok? ==> r.value == IoUAll(Pairs(Boxes(), other.Boxes()).value)
      ensures r.Ok? ==> |r.value| == |Pairs(Boxes(), other.Boxes()).value|
      ensures r.Ok? ==> forall i :: 0 <= i < |r.value| ==> 0.0 <= r.value[i] <= 1.0
    {
      match Pairs(Boxes(), other.Boxes())
      case Err(e) => Err(e)
      case Ok(ps) => Ok(IoUAll(ps))
    }

    /** `is_inside`: whether every coordinate of each box lies in the image of size `imSize`. */
    function IsInsideAll(imSize: Pairable): (r: Result<seq<bool>>)
      requires Valid()
      reads xyxy
      ensures r.Ok? <==> Pair(imSize).Ok?
      ensures r.Ok? ==> |r.value| == |Boxes()|
      ensures r.Ok? ==> forall i :: 0 <= i < |r.value| ==>
        (r.value[i] <==> IsInside(Boxes()[i], Pair(imSize).value.0, Pair(imSize).value.1))
      ensures r.Ok? && Pair(imSize).value.0 >= 1.0 && Pair(imSize).value.1 >= 1.0 ==>
        forall i :: 0 <= i < |r.value| ==>
          (r.value[i] <==> Geometry.Rectify(Boxes()[i], Pair(imSize).value.0, Pair(imSize).value.1) == Boxes()[i])
    {
      match Pair(imSize)
      case Err(e) => Err(e)
      case Ok(s) =>
        var r := Map((b: Box) => IsInside(b, s.0, s.1), Boxes());
        if s.0 >= 1.0 && s.1 >= 1.0 then
          forall i | 0 <= i < |r| {
            RectifyFixesInside(Boxes()[i], s.0, s.1);
          }
          Ok(r)
        else
          Ok(r)
    }

    /** `rectify`: every box clipped to the image of size `imSize`, as a new batch. */
    method Rectify(imSize: Pairable) returns (r: Result<BBox>)
      requires Valid()
      ensures Pair(imSize).Err? ==> r == Err(Pair(imSize).error)
      ensures Pair(imSize).Ok? ==> (r.Ok? && fresh(r.value) && fresh(r.value.xyxy) && r.value.Valid() &&
        r.value.Boxes() == RectifyAll(Boxes(), Pair(imSize).value.0, Pair(imSize).value.1))
    {
      var ps := Pair(imSize);
      if ps.Err? {
        return Err(ps.error);
      }
      var buf := BufferOf(RectifyAll(Boxes(), ps.value.0, ps.value.1));
      var bb := new BBox.Wrap(buf);
      r := Ok(bb);
    }
  }

  /** `stack` of single boxes (inputs of batch rank 0): the axis must be -1 or 0, and either way the
      result is the batch of the inputs in order. An empty input has no first element to read. */
  method Stack(boxes: seq<Box>, axis: int) returns (r: Result<BBox>)
    ensures boxes == [] ==> r == Err(IndexOutOfRange(0, 0))
    ensures boxes != [] ==> (r.Ok? <==> Stacking.StackAxis(axis, 0).Ok?)
    ensures boxes != [] && r.Err? ==> r.error == AxisOutOfBounds(axis, 0)
    ensures r.Ok? ==> Stacking.InsertPosition(axis, 0) == Ok(0)
    ensures r.Ok? ==> fresh(r.value) && fresh(r.value.xyxy) && r.value.Valid() && r.value.Boxes() == boxes
  {
    if boxes == [] {
      return Err(IndexOutOfRange(0, 0));
    }
    var a := Stacking.StackAxis(axis, 0);
    if a.Err? {
      return Err(a.error);
    }
    var buf := BufferOf(boxes);
    var bb := new BBox.Wrap(buf);
    r := Ok(bb);
  }
}
