/** The pair normaliser: one scalar, or an object of length 2, becomes an (x, y) pair. */
module Utils {
  import opened Errors

  /** What `pair` may be given: a bare scalar (no length), or an object with a length. */
  datatype Pairable = Scalar(value: real) | Elems(elems: seq<real>)

  /** The pairable that spells out a pair explicitly, as a 2-element sequence. */
  function FromPair(v: (real, real)): Pairable {
    Elems([v.0, v.1])
  }

  /** `pair`: a scalar is used for both axes, a 2-element object is taken verbatim,
      and any other length is an error that reports that length. */
  function Pair(p: Pairable): (r: Result<(real, real)>)
    ensures p.Scalar? ==> r == Ok((p.value, p.value))
    ensures p.Elems? ==> (r.Ok? <==> |p.elems| == 2)
    ensures p.Elems? && r.Ok? ==> [r.value.0, r.value.1] == p.elems
    ensures p.Elems? && r.Err? ==> r.error == PairLength(|p.elems|)
  {
    match p
    case Elems(xs) => if |xs| == 2 then Ok((xs[0], xs[1])) else Err(PairLength(|xs|))
    case Scalar(x) => Ok((x, x))
  }

  /** A convenience corollary of `Pair`'s contract: only a scalar or a length-2 object is accepted. */
  lemma PairAcceptedIff(p: Pairable)
    ensures Pair(p).Ok? <==> p.Scalar? || |p.elems| == 2
  {
  }

  /** A scalar and its duplicated 2-sequence normalise to the same pair (`pair(0) == pair([0, 0])`). */
  lemma ScalarAgreesWithDuplicate(x: real)
    ensures Pair(Scalar(x)) == Pair(Elems([x, x]))
  {
  }

  /** The output of `pair` always has length 2, so normalising it again changes nothing. */
  lemma PairIdempotent(p: Pairable)
    requires Pair(p).Ok?
    ensures Pair(FromPair(Pair(p).value)) == Pair(p)
  {
  }
}
