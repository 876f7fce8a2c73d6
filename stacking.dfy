/** The axis rule of `stack`, for inputs of any batch rank. */
module Stacking {
  import opened Errors

  /** `stack`'s check and adjustment of `axis` for inputs of batch rank `ndim`. The legal values are
      -ndim-1 .. ndim; a negative axis is moved one place further left, so that it counts from the end
      of the batch axes rather than from the trailing coordinate axis of the storage. */
  function StackAxis(axis: int, ndim: nat): (r: Result<int>)
    ensures r.Ok? <==> -(ndim as int) - 1 <= axis <= ndim
    ensures r.Err? ==> r.error == AxisOutOfBounds(axis, ndim)
    ensures r.Ok? ==> -(ndim as int) - 2 <= r.value <= ndim && (r.value < 0 <==> axis < 0)
    ensures r.Ok? ==> r.value == (if axis < 0 then axis - 1 else axis)
  {
    if !(-(ndim as int) - 1 <= axis <= ndim) then Err(AxisOutOfBounds(axis, ndim))
    else if axis < 0 then Ok(axis - 1)
    else Ok(axis)
  }

  /** numpy's normalisation of an axis argument against the rank of the array it indexes:
      a negative axis counts from the end, anything outside the rank is an error. */
  function NumpyAxis(axis: int, rank: nat): (r: Result<nat>)
    ensures r.Ok? <==> -(rank as int) <= axis < rank
    ensures r.Ok? ==> r.value < rank && (r.value == axis || r.value == axis + rank)
  {
    if 0 <= axis < rank then Ok(axis as nat)
    else if -(rank as int) <= axis < 0 then Ok((axis + rank) as nat)
    else Err(AxisOutOfBounds(axis, rank))
  }

  /** The position of the new axis in the stacked storage: `np.stack` of arrays of storage rank
      ndim + 1 builds an array of rank ndim + 2, against which it normalises the adjusted axis. */
  function InsertPosition(axis: int, ndim: nat): (r: Result<nat>)
    ensures r.Ok? ==> r.value == (if axis < 0 then axis + ndim + 1 else axis)
  {
    match StackAxis(axis, ndim)
    case Err(e) => Err(e)
    case Ok(a) => NumpyAxis(a, ndim + 2)
  }

  /** Every legal axis lands among the batch axes, never on the trailing coordinate axis
      (position ndim + 1), and numpy never rejects it. */
  lemma InsertPositionInBatch(axis: int, ndim: nat)
    ensures InsertPosition(axis, ndim).Ok? <==> StackAxis(axis, ndim).Ok?
    ensures InsertPosition(axis, ndim).Ok? ==> InsertPosition(axis, ndim).value <= ndim
  {
  }

  /** A negative axis is the positive axis `axis + ndim + 1`. */
  lemma NegativeAxisEquivalent(axis: int, ndim: nat)
    requires -(ndim as int) - 1 <= axis < 0
    ensures InsertPosition(axis, ndim).Ok?
    ensures InsertPosition(axis, ndim) == InsertPosition(axis + ndim + 1, ndim)
  {
  }

  /** The batch shape of `stack`ing `count` inputs of batch shape `shape`: the new axis of length
      `count` is inserted at the position above, and removing it gives the inputs' shape back. */
  function StackedShape(shape: seq<nat>, count: nat, axis: int): (r: Result<seq<nat>>)
    ensures r.Ok? <==> StackAxis(axis, |shape|).Ok?
    ensures r.Err? ==> r.error == AxisOutOfBounds(axis, |shape|)
    ensures r.Ok? ==> InsertPosition(axis, |shape|).Ok? && |r.value| == |shape| + 1
    ensures r.Ok? ==> var p := InsertPosition(axis, |shape|).value;
      r.value[p] == count && r.value[..p] + r.value[p + 1..] == shape
  {
    InsertPositionInBatch(axis, |shape|);
    match InsertPosition(axis, |shape|)
    case Err(e) => Err(e)
    case Ok(p) =>
      var r := shape[..p] + [count] + shape[p..];
      assert r[..p] == shape[..p] && r[p + 1..] == shape[p..];
      Ok(r)
  }
}
