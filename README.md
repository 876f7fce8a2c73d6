# bbox in Dafny

This project models the core of `bbox`, a small library for batches of axis-aligned bounding boxes.
A batch is a numeric buffer whose trailing dimension is 4. Each row holds one box in canonical
`xyxy` order, with inclusive pixel corners, so the width is `x1 - x0 + 1`. The model covers five things:

- the `pair` normaliser that every axis-wise parameter goes through;
- construction including the mode check, shape check, `xywh`/`ccwh` conversion and base subtraction;
- the accessors;
- translation, scaling, intersection, IoU, `is_inside`/`rectify` and item access;
- the axis rule of `stack`.

Modules:

- `Errors`: one constructor of `Error` per exception the core raises:
  - `ValueError` from `pair`;
  - `ValueError` for a bad mode or shape;
  - numpy's broadcast error;
  - `IndexError`;
  - `ZeroDivisionError`;
  - `AxisError`.

  It also holds `Result` and `Outcome`.
- `Utils`: `pair`. A `Pairable` is either a scalar, which has no length, or a sequence.
- `Geometry`: one box as a value, and every per-box formula of the core with its laws.
- `Batch`:
  - numpy's elementwise application over the batch axis (`Map`);
  - broadcasting of two batches (`Pairs`) and of an assigned value (`Broadcast`);
  - integer indices and `lo:hi` slices;
  - the batch-wide forms of the laws.
- `Stacking`: the axis check and adjustment of `stack`, for inputs of any batch rank, and the resulting batch shape.
- `BBoxes`:
  - the class `BBox`, which holds its coordinate buffer by reference as an `array2<real>` of shape (n, 4);
  - its operators, as methods that change that buffer in place or build a new one;
  - `Stack`.

Each state-changing method is proved against the functions in `Geometry` and `Batch`. Its `ensures` gives
the new contents of the buffer as `Boxes() == F(old(Boxes()))` for the corresponding batch function `F`.
The laws are then proved about `F`. A copying operator (`+`, `-`, `*`, `/`) is modelled as the source
writes it: `Copy()`, then the in-place form on the copy. It promises that `this` is unchanged and that the
result is fresh.

Aliasing is part of the constructor's contract. With `copy = false`:

- the stored buffer is the caller's array;
- the conversion and the base subtraction are applied to that array;
- later in-place operators change it too.

With `copy = true`, or on any error, the caller's array is unchanged.

Two details of the code are easy to misread:

- In the constructor, `base` defaults to 0 and is subtracted from every coordinate (`bbox/bbox.py:17`, `bbox/bbox.py:38`). `loadtxt` has a default of 1 instead (`bbox/bbox.py:223`).
- `*` and `/` scale about the fixed point `-0.5` on both axes (`bbox/bbox.py:138`), not about each box's own center.

## Model

| member | source | states |
|---|---|---|
| Utils.Pair | bbox/utils.py:1-8 | a scalar x gives (x, x); an object is accepted iff its length is 2, and then its elements come back in order; any other length is an error that reports that length |
| Utils.PairAcceptedIff | bbox/utils.py:1-8 | `pair` succeeds exactly on scalars and length-2 objects |
| Utils.ScalarAgreesWithDuplicate | tests/test_utils.py:7-13 | a scalar and the 2-sequence that repeats it normalise to the same pair |
| Utils.PairIdempotent | bbox/utils.py:1-8 | normalising the output of `pair` again gives the same pair |
| Geometry.ParseMode | bbox/bbox.py:20-21 | exactly `xyxy`, `xywh` and `ccwh` are accepted, each as the mode of that name; every other string is the mode error |
| Geometry.Size | bbox/bbox.py:74-81 | counting the inclusive size on from the low corner reaches the high corner, on each axis |
| Geometry.Center | bbox/bbox.py:65-72 | the center is equally far from the low and the high edge, on each axis |
| Geometry.IsValid | bbox/bbox.py:156-158 | a box is valid iff x1 > x0 - 1 and y1 > y0 - 1, that is, its inclusive width and height are positive |
| Geometry.Area | bbox/bbox.py:83-86 | the area is never negative, is positive iff the box is valid (width and height above 0), and is width times height for a valid box |
| Geometry.FromXYWH | bbox/bbox.py:32-33 | the converted box keeps the given low corner and has the given (w, h) as its inclusive size |
| Geometry.CornerFromCenter | bbox/bbox.py:35 | the new low corner lies (w - 1) / 2 below the given center on x and (h - 1) / 2 on y, and the size is kept |
| Geometry.FromCCWH | bbox/bbox.py:34-36 | the converted box has the given center and the given inclusive size |
| Geometry.Canonical | bbox/bbox.py:32-36 | `xyxy` keeps the row; `xywh` keeps the low corner, and `ccwh` puts the center at the first two entries; in both of these the last two entries become the inclusive size |
| Geometry.XYWHRoundTrip | bbox/bbox.py:32-33 | building `xywh` from a box's own low corner and `size` gives the box back |
| Geometry.CCWHRoundTrip | bbox/bbox.py:34-36 | building `ccwh` from a box's own `center` and `size` gives the box back |
| Geometry.Translate | bbox/bbox.py:115-119 | translation keeps the size and moves the center by (dx, dy) |
| Geometry.Untranslate | bbox/bbox.py:126-130 | subtraction keeps the size and moves the center by (-dx, -dy) |
| Geometry.Normalize | bbox/bbox.py:32-38 | translating the normalised box back by base gives the converted box, so the size is the converted size |
| Geometry.TranslateRoundTrip | tests/test_bbox.py:99-104 | `(b + d) - d == b` |
| Geometry.TranslateCompose | tests/test_bbox.py:91-97 | `(b + a) + c == b + (a + c)` |
| Geometry.Scale | bbox/bbox.py:160-170 | scaling multiplies the inclusive width by kx and the inclusive height by ky, and moves the center's offset from the fixed point (fpx, fpy) by the same factors; together these fix the box |
| Geometry.ScaledExtent | bbox/bbox.py:166-169 | on one axis, the half-pixel edge formula turns the inclusive extent into the old extent times the factor |
| Geometry.ScaleEdgeCompose | bbox/bbox.py:166-169 | applying the edge formula with factor a and then c, about one fixed point, is applying it once with a * c |
| Geometry.ScaleCompose | bbox/bbox.py:160-170 | two scalings about the same fixed point are one scaling by the product of the factors |
| Geometry.Mul | bbox/bbox.py:137-139 | `*` multiplies the inclusive width by kx and the inclusive height by ky, and the center's offset from the fixed point (-0.5, -0.5) by the same factors, not scaling about the box's own center; factor 1 keeps the box |
| Geometry.Div | bbox/bbox.py:146-149 | `/` leaves a box whose width, height and center offset from the fixed point (-0.5, -0.5), multiplied by kx and ky, are the old ones |
| Geometry.MulCompose | tests/test_bbox.py:106-112 | `(b * a) * c == b * (a * c)` |
| Geometry.MulDivRoundTrip | tests/test_bbox.py:114-119 | `(b * k) / k == b` for nonzero factors |
| Geometry.Intersect | bbox/bbox.py:107-110 | a point lies in the intersection iff it lies in both boxes; and, for every box c, even a degenerate one, c is within the intersection corner-wise iff it is within both boxes, which fixes the intersection even when the boxes do not overlap |
| Geometry.IntersectCommutes | bbox/bbox.py:107-110 | `a & b == b & a` |
| Geometry.IntersectSelf | bbox/bbox.py:107-110 | `b & b == b` |
| Geometry.IntersectAreaBound | bbox/bbox.py:107-110 | the area of the intersection is at most the area of either box |
| Geometry.UnionArea | bbox/bbox.py:202 | the union area is at least the area of each box and at most their sum |
| Geometry.IoUDefinedIff | bbox/bbox.py:200-202 | the IoU denominator is nonzero iff at least one of the two boxes is valid |
| Geometry.IoU | bbox/bbox.py:200-202 | the IoU lies between 0 and 1 |
| Geometry.IoUSelf | bbox/bbox.py:200-202 | a box of positive area has IoU 1 with itself |
| Geometry.IoUCommutes | bbox/bbox.py:200-202 | the IoU is symmetric in its two boxes |
| Geometry.IoUDisjoint | bbox/bbox.py:200-202 | boxes with a degenerate intersection have IoU 0 |
| Geometry.Clip | bbox/bbox.py:195-196 | for lo <= hi the value is kept inside [lo, hi], raised to lo below it and lowered to hi above it; for hi < lo the result is hi, as in numpy |
| Geometry.IsInside | bbox/bbox.py:176-191 | a box is inside the image iff both its corners lie in the rectangle of pixels 0 .. w-1 by 0 .. h-1 |
| Geometry.Rectify | bbox/bbox.py:193-198 | for an image of at least one pixel per axis, the rectified box is inside it; a box already inside is unchanged |
| Geometry.RectifyFixesInside | bbox/bbox.py:176-198 | for an image of at least one pixel per axis, `is_inside` holds iff `rectify` leaves the box unchanged |
| Geometry.RectifyIdempotent | bbox/bbox.py:193-198 | rectifying twice is rectifying once |
| Batch.Pairs | bbox/bbox.py:108-109 | two batches line up iff their lengths are equal or one of them is 1, and then entry i pairs the i-th boxes, a length-1 batch being repeated; otherwise the error names both lengths |
| Batch.IoUAll | bbox/bbox.py:200-202 | the batch IoU has one entry per pair, each the IoU of that pair and between 0 and 1 |
| Batch.NormalizeIdentity | bbox/bbox.py:94-95 | construction in `xyxy` mode with base 0, as `__copy__` does, keeps every coordinate |
| Batch.TranslateAllRoundTrip | tests/test_bbox.py:99-104 | `(b + d) - d == b` for a whole batch |
| Batch.TranslateAllCompose | tests/test_bbox.py:91-97 | `(b + a) + c == b + (a + c)` for a whole batch |
| Batch.MulAllCompose | tests/test_bbox.py:106-112 | `(b * a) * c == b * (a * c)` for a whole batch |
| Batch.MulAllDivRoundTrip | tests/test_bbox.py:114-119 | `(b * k) / k == b` for a whole batch and nonzero factors |
| Batch.RectifyAllIdempotent | bbox/bbox.py:193-198 | rectifying a whole batch twice is rectifying it once |
| Batch.Index | bbox/bbox.py:101-102 | an integer index is accepted iff -n <= i < n, and selects position i, or i + n when it is negative; otherwise it is the index error |
| Batch.SliceBound | bbox/bbox.py:101-102 | a slice bound lies in [0, n]: it is kept inside the range, counts from the end when negative, and is clamped to n above the range and to 0 below -n |
| Batch.SliceRange | bbox/bbox.py:101-105 | a `lo:hi` slice starts at the normalised lo and stops at the normalised hi, or is empty at the start when that stop comes first |
| Batch.Broadcast | bbox/bbox.py:104-105 | the value assigned to m rows is the given rows, or its single row repeated m times |
| Batch.Assign | bbox/bbox.py:104-105 | slice assignment keeps the length and every row outside the slice, and writes the broadcast value into the slice |
| Batch.AssignOwnSlice | tests/test_bbox.py:85-89 | `b[lo:hi] = b[lo:hi]` leaves the batch unchanged |
| Stacking.StackAxis | bbox/bbox.py:211-215 | the axis is accepted iff -ndim-1 <= axis <= ndim, otherwise it is an `AxisError` naming the axis and ndim; an accepted non-negative axis is kept and a negative one is shifted by -1 |
| Stacking.NumpyAxis | bbox/bbox.py:216 | numpy accepts an axis iff -rank <= axis < rank, counting a negative one from the end |
| Stacking.InsertPosition | bbox/bbox.py:216 | an accepted axis inserts the new axis at position axis, or axis + ndim + 1 when it is negative |
| Stacking.InsertPositionInBatch | bbox/bbox.py:210-217 | every accepted axis is accepted by numpy too, and lands among the batch axes, never on the trailing coordinate axis |
| Stacking.NegativeAxisEquivalent | bbox/bbox.py:214-216 | a negative axis stacks exactly as the positive axis `axis + ndim + 1` |
| Stacking.StackedShape | bbox/bbox.py:210-217 | stacking `count` inputs inserts an axis of length `count` at the insert position, and removing it gives the inputs' batch shape back; an illegal axis is the `AxisError` |
| BBoxes.CopyBuffer | bbox/bbox.py:25 | `arr.copy()` is a new buffer of the same shape and the same entries |
| BBoxes.XYWHInPlace | bbox/bbox.py:33 | the in-place `xywh` step turns every row into its `xywh` conversion |
| BBoxes.CornerFromCenterInPlace | bbox/bbox.py:35 | the in-place center step turns every (cx, cy, w, h) row into (x0, y0, w, h) |
| BBoxes.CCWHInPlace | bbox/bbox.py:34-36 | the two in-place `ccwh` steps turn every row into its `ccwh` conversion |
| BBoxes.SubtractInPlace | bbox/bbox.py:38 | `arr -= base` moves every box by -base on both axes |
| BBoxes.NormalizeInPlace | bbox/bbox.py:32-38 | conversion followed by base subtraction leaves every row normalised for that mode and base |
| BBoxes.NormalizeSplit | bbox/bbox.py:32-38 | normalisation is exactly the conversion step followed by the base step |
| BBoxes.TranslateBuffer | bbox/bbox.py:117-118 | the two strided updates translate every row by (dx, dy) |
| BBoxes.UntranslateBuffer | bbox/bbox.py:128-129 | the two strided updates translate every row by (-dx, -dy) |
| BBoxes.ScaleBuffer | bbox/bbox.py:166-169 | the four column assignments scale every row about the fixed point |
| BBoxes.BBox.Wrap | bbox/bbox.py:39 | the new batch holds the given buffer itself |
| BBoxes.BBox.Create | bbox/bbox.py:13-39 | the result is a mode error for an unknown mode, otherwise a shape error for a trailing dimension other than 4, otherwise a batch of the normalised rows; the caller's array is changed only without `copy` and on success, and then it is the stored buffer |
| BBoxes.BBox.NDim | bbox/bbox.py:41-43 | the batch rank is the length of the batch shape |
| BBoxes.BBox.Shape | bbox/bbox.py:45-47 | the batch shape is the number of boxes |
| BBoxes.BBox.Len | bbox/bbox.py:97-98 | the length is the number of boxes, the first entry of the shape |
| BBoxes.BBox.Column | bbox/bbox.py:49-63 | `_x0`, `_y0`, `_x1`, `_y1` give coordinate j of every box |
| BBoxes.BBox.Centers | bbox/bbox.py:65-72 | every box is rebuilt by `ccwh` from its center and size |
| BBoxes.BBox.Sizes | bbox/bbox.py:74-81 | every box is rebuilt by `xywh` from its low corner and size |
| BBoxes.BBox.Validity | bbox/bbox.py:156-158 | entry i holds iff box i has width and height above 0 |
| BBoxes.BBox.Areas | bbox/bbox.py:83-86 | entry i is the area of box i: never negative, positive exactly where the box is valid, and width times height there |
| BBoxes.BBox.Copy | bbox/bbox.py:94-95 | the copy is a new batch over a new buffer with the same boxes |
| BBoxes.BBox.Get | bbox/bbox.py:101-102 | an accepted index gives the box at that position, and any other index is the index error |
| BBoxes.BBox.GetRange | bbox/bbox.py:101-102 | a slice gives a new batch of exactly the boxes in the normalised range |
| BBoxes.BBox.SetItem | bbox/bbox.py:104-105 | an accepted index overwrites that one box and keeps every other one; any other index is an error and changes nothing |
| BBoxes.BBox.SetRange | bbox/bbox.py:104-105 | slice assignment writes the broadcast value into the range and keeps every other box; a value of any other length is the broadcast error and changes nothing |
| BBoxes.BBox.TranslateInPlace | bbox/bbox.py:115-119 | `+=` translates every box in place by `pair(point)`; a bad pair is its error and changes nothing |
| BBoxes.BBox.Translated | bbox/bbox.py:121-124 | `+` gives a new batch of the translated boxes and leaves this one unchanged |
| BBoxes.BBox.UntranslateInPlace | bbox/bbox.py:126-130 | `-=` translates every box in place by minus `pair(point)`; a bad pair is its error and changes nothing |
| BBoxes.BBox.Untranslated | bbox/bbox.py:132-135 | `-` gives a new batch of the untranslated boxes and leaves this one unchanged |
| BBoxes.BBox.MulInPlace | bbox/bbox.py:137-139 | `*=` scales every box in place about the fixed point -0.5 |
| BBoxes.BBox.Multiplied | bbox/bbox.py:141-144 | `*` gives a new batch of the scaled boxes and leaves this one unchanged |
| BBoxes.BBox.DivInPlace | bbox/bbox.py:146-149 | `/=` scales in place by the reciprocal factors; a zero factor is the division error and changes nothing |
| BBoxes.BBox.Divided | bbox/bbox.py:151-154 | `/` gives a new batch scaled by the reciprocal factors, or the division error for a zero factor; this batch is unchanged either way |
| BBoxes.BBox.Scale | bbox/bbox.py:160-170 | the factor is checked before the fixed point; on success every box is scaled, in this batch when `inplace` and otherwise in a new one, leaving this batch unchanged |
| BBoxes.BBox.Intersect | bbox/bbox.py:107-110 | `&` gives a new batch of the pairwise intersections of the broadcast batches, or the broadcast error |
| BBoxes.BBox.IoU | bbox/bbox.py:200-202 | for batches that broadcast, the result is the IoU of every broadcast pair, each between 0 and 1; otherwise it is the broadcast error |
| BBoxes.BBox.IsInsideAll | bbox/bbox.py:176-191 | entry i holds iff every coordinate of box i lies in [0, w-1] x [0, h-1], and, for an image of at least one pixel, iff `rectify` leaves box i unchanged |
| BBoxes.BBox.Rectify | bbox/bbox.py:193-198 | `rectify` gives a new batch of the clipped boxes |
| BBoxes.Stack | bbox/bbox.py:210-217 | stacking an empty list is the index error of reading its first element; otherwise the axis must be -1 or 0 (the legal range for rank-0 inputs), both insert the new axis at position 0, and the result is the batch of the inputs in order |

## Left out

- `loadtxt` (`bbox/bbox.py:220-232`) is left out: it reads a text file through numpy's reader, which is I/O and a foreign call.
- `__repr__` and `__str__` are left out, because they only format strings.
- `__round__` is left out, because it depends on numpy's floating-point rounding and its tie rule.
- `reshape` is left out, because it needs the strided views of batches of rank above 1.
- Floating point is not modelled: coordinates are mathematical reals, so rounding error is absent and the laws hold exactly.
- Integer buffers are not modelled. numpy refuses to store a float `base` or a half-width into an integer array in place; here every buffer holds reals.
- The buffer of a `BBox` always has batch rank 1, an (n, 4) array. Boxes of rank 0 appear as `Box` values: the result of `Get`, the inputs of `Stack`. Only the `stack` axis rule and its shape handle any rank.
- Non-array inputs are not modelled. The source always copies an input that is not already an ndarray; this is the `copy = true` case of `Create`.
- A rank-0 input to construction (a bare scalar, which has no trailing dimension to read) is ruled out by the buffer type.
- `AxisError` as an exception class is modelled only as the error value `AxisOutOfBounds(axis, ndim)`; its message text is left out.
- `Geometry.IoU`: requires a nonzero union area. The source divides anyway and gets numpy's `nan` or `inf`, which reals cannot represent.
- `BBoxes.BBox.DivInPlace` and `BBoxes.BBox.Divided`: a zero factor is modelled as the `ZeroDivisionError` of Python numbers. A numpy scalar factor gives `inf` there instead, with no exception, and reals cannot represent `inf`.
- `BBoxes.BBox.IoU`: requires the same nonzero union area for every broadcast pair, for the same reason.
- `BBoxes.BBox.Column`: returns coordinate j of every box as a sequence of values. In the source, `_x0` .. `_y1` are numpy views of the buffer; nothing in the core writes through them.
- `BBoxes.BBox.Get`: returns the box as a value, not as a rank-0 `BBox` that views one row of the buffer.
- `BBoxes.BBox.GetRange`: returns an independent copy of the selected rows. numpy's basic slicing yields a view that shares the buffer, so later writes through one are not seen through the other in the model. Other kinds of key are left out: tuples, ellipses, steps, fancy indexing.
- `BBoxes.BBox.SetRange`: takes the assigned rows as a sequence of boxes with numpy's broadcast of a single row. Other array shapes for the value are left out.
- `BBoxes.Stack`: covers inputs of rank 0 only. For inputs of higher rank, `Stacking.StackedShape` gives the shape of the result but the coordinates are not modelled.
