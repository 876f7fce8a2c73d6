/** Batches of boxes as values: numpy's elementwise broadcasting over the batch axis,
    the batch-wide forms of the per-box operations, and the index and slice rules. */
module Batch {
  import opened Errors
  import opened Geometry

  /** Elementwise application over the batch axis. */
  function Map<S, T>(f: S -> T, xs: seq<S>): (r: seq<T>)
    ensures |r| == |xs|
    ensures forall i :: 0 <= i < |xs| ==> r[i] == f(xs[i])
  {
    if xs == [] then [] else [f(xs[0])] + Map(f, xs[1..])
  }

  /** How numpy lines up two batches for a binary elementwise operation: equal lengths pair
      up entry by entry, a batch of one is repeated, and any other combination is an error. */
  function Pairs(a: seq<Box>, b: seq<Box>): (r: Result<seq<(Box, Box)>>)
    ensures r.Ok? <==> |a| == |b| || |a| == 1 || |b| == 1
    ensures r.Err? ==> r.error == BroadcastMismatch(|a|, |b|)
    ensures r.Ok? ==> |r.value| == (if |a| == 1 then |b| else |a|)
    ensures r.Ok? ==> forall i :: 0 <= i < |r.value| ==>
      r.value[i] == (a[if |a| == 1 then 0 else i], b[if |b| == 1 then 0 else i])
  {
    if |a| == |b| then Ok(seq(|a|, i requires 0 <= i < |a| => (a[i], b[i])))
    else if |a| == 1 then Ok(seq(|b|, i requires 0 <= i < |b| => (a[0], b[i])))
    else if |b| == 1 then Ok(seq(|a|, i requires 0 <= i < |a| => (a[i], b[0])))
    else Err(BroadcastMismatch(|a|, |b|))
  }

  // ---------------------------------------------------------------- batch-wide operations

  function NormalizeAll(m: Mode, base: real, bs: seq<Box>): seq<Box> {
    Map((b: Box) => Normalize(m, base, b), bs)
  }

  function TranslateAll(bs: seq<Box>, dx: real, dy: real): seq<Box> {
    Map((b: Box) => Translate(b, dx, dy), bs)
  }

  function UntranslateAll(bs: seq<Box>, dx: real, dy: real): seq<Box> {
    Map((b: Box) => Untranslate(b, dx, dy), bs)
  }

  function ScaleAll(bs: seq<Box>, kx: real, ky: real, fpx: real, fpy: real): seq<Box> {
    Map((b: Box) => Scale(b, kx, ky, fpx, fpy), bs)
  }

  function RectifyAll(bs: seq<Box>, w: real, h: real): seq<Box> {
    Map((b: Box) => Rectify(b, w, h), bs)
  }

  function IntersectAll(ps: seq<(Box, Box)>): seq<Box> {
    Map((p: (Box, Box)) => Intersect(p.0, p.1), ps)
  }

  predicate AllIoUDefined(ps: seq<(Box, Box)>) {
    forall i :: 0 <= i < |ps| ==> IoUDefined(ps[i].0, ps[i].1)
  }

  function IoUAll(ps: seq<(Box, Box)>): (r: seq<real>)
    requires AllIoUDefined(ps)
    ensures |r| == |ps|
    ensures forall i :: 0 <= i < |ps| ==> r[i] == IoU(ps[i].0, ps[i].1)
    ensures forall i :: 0 <= i < |ps| ==> 0.0 <= r[i] <= 1.0
  {
    seq(|ps|, i requires 0 <= i < |ps| && IoUDefined(ps[i].0, ps[i].1) => IoU(ps[i].0, ps[i].1))
  }

  /** Scaling a batch about the `*` fixed point. */
  function MulAll(bs: seq<Box>, kx: real, ky: real): seq<Box> {
    ScaleAll(bs, kx, ky, MulFixedPoint, MulFixedPoint)
  }

  // ---------------------------------------------------------------- laws, batch-wide

  /** A construction in xyxy mode with base 0 stores the coordinates as given. */
  lemma NormalizeIdentity(bs: seq<Box>)
    ensures NormalizeAll(XYXY, 0.0, bs) == bs
  {
  }

  /** `(b + d) - d == b` for a whole batch. */
  lemma TranslateAllRoundTrip(bs: seq<Box>, dx: real, dy: real)
    ensures UntranslateAll(TranslateAll(bs, dx, dy), dx, dy) == bs
  {
  }

  /** `(b + a) + c == b + (a + c)` for a whole batch. */
  lemma TranslateAllCompose(bs: seq<Box>, ax: real, ay: real, cx: real, cy: real)
    ensures TranslateAll(TranslateAll(bs, ax, ay), cx, cy) == TranslateAll(bs, ax + cx, ay + cy)
  {
  }

  /** `(b * a) * c == b * (a * c)` for a whole batch. */
  lemma MulAllCompose(bs: seq<Box>, ax: real, ay: real, cx: real, cy: real)
    ensures MulAll(MulAll(bs, ax, ay), cx, cy) == MulAll(bs, ax * cx, ay * cy)
  {
    forall i | 0 <= i < |bs| {
      MulCompose(bs[i], ax, ay, cx, cy);
    }
  }

  /** `(b * a) / a == b` for a whole batch and nonzero factors. */
  lemma MulAllDivRoundTrip(bs: seq<Box>, kx: real, ky: real)
    requires kx != 0.0 && ky != 0.0
    ensures MulAll(MulAll(bs, kx, ky), 1.0 / kx, 1.0 / ky) == bs
  {
    forall i | 0 <= i < |bs| {
      MulDivRoundTrip(bs[i], kx, ky);
    }
  }

  /** Rectifying twice is rectifying once. */
  lemma RectifyAllIdempotent(bs: seq<Box>, w: real, h: real)
    ensures RectifyAll(RectifyAll(bs, w, h), w, h) == RectifyAll(bs, w, h)
  {
    forall i | 0 <= i < |bs| {
      RectifyIdempotent(bs[i], w, h);
    }
  }

  // ---------------------------------------------------------------- indexing

  /** An integer index into a batch of `n`: negative indices count from the end. */
  function Index(i: int, n: nat): (r: Result<nat>)
    ensures r.Ok? <==> 0 <= i + n && i < n
    ensures r.Ok? ==> r.value < n && (r.value == i || r.value == i + n)
    ensures r.Err? ==> r.error == IndexOutOfRange(i, n)
  {
    if 0 <= i < n then Ok(i as nat)
    else if 0 <= i + n && i < 0 then Ok((i + n) as nat)
    else Err(IndexOutOfRange(i, n))
  }

  /** One bound of a `lo:hi` slice: negative counts from the end, then clamped to [0, n]. */
  function SliceBound(i: int, n: nat): (r: nat)
    ensures r <= n
    ensures 0 <= i <= n ==> r == i
    ensures 0 <= i + n && i < 0 ==> r == i + n
    ensures i > n ==> r == n
    ensures i + n < 0 ==> r == 0
  {
    if i < 0 then (if i + n < 0 then 0 else (i + n) as nat)
    else if i > n then n
    else i as nat
  }

  /** The positions a `lo:hi` slice selects; an empty range when the stop is not after the start. */
  function SliceRange(lo: int, hi: int, n: nat): (r: (nat, nat))
    ensures r.0 <= r.1 <= n
    ensures r.0 == SliceBound(lo, n)
    ensures r.1 == (if SliceBound(hi, n) < r.0 then r.0 else SliceBound(hi, n))
  {
    var start, stop := SliceBound(lo, n), SliceBound(hi, n);
    if stop < start then (start, start) else (start, stop)
  }

  /** The rows written by an assignment of `vs` to `m` rows: `vs` itself, or its one row repeated. */
  function Broadcast(vs: seq<Box>, m: nat): (r: seq<Box>)
    requires |vs| == m || |vs| == 1
    ensures |r| == m
    ensures forall k :: 0 <= k < m ==> r[k] == vs[if |vs| == m then k else 0]
  {
    if |vs| == m then vs else seq(m, _ => vs[0])
  }

  /** The batch after assigning `vs` to the rows `lo..hi`; the other rows are kept. */
  function Assign(bs: seq<Box>, lo: nat, hi: nat, vs: seq<Box>): (r: seq<Box>)
    requires lo <= hi <= |bs|
    requires |vs| == hi - lo || |vs| == 1
    ensures |r| == |bs|
    ensures r[..lo] == bs[..lo] && r[hi..] == bs[hi..]
    ensures forall k :: lo <= k < hi ==> r[k] == vs[if |vs| == hi - lo then k - lo else 0]
  {
    bs[..lo] + Broadcast(vs, hi - lo) + bs[hi..]
  }

  /** Writing back what a slice reads leaves the batch unchanged (`b[:1] = b[:1]`). */
  lemma AssignOwnSlice(bs: seq<Box>, lo: nat, hi: nat)
    requires lo <= hi <= |bs|
    ensures Assign(bs, lo, hi, bs[lo..hi]) == bs
  {
  }
}
