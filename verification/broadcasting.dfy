/**
  The broadcasting layer over the Agresti-Coull point estimator. The sample
  size and the success count are each a single number or a sequence; the
  point estimator is applied to every positional (n, x) pair with one shared
  multiplier z, and the results come back as one interval, or as a column of
  centers and a column of half-widths in input order.
 */
module Broadcasting {
  import opened Optional
  import opened PointEstimator

  /** An argument that is one number or a sequence of numbers. */
  datatype Arg = Scalar(value: real) | Seq(values: seq<real>)

  /**
    The result of a call: the estimator's own result for two scalars;
    otherwise two parallel columns, one entry per (n, x) pair, holding `None`
    where the pair's sample size is not positive.
   */
  datatype Output =
    | Single(estimate: Option<Interval>)
    | Columns(centers: seq<Option<real>>, halfWidths: seq<Option<ScaledRoot>>)

  function Min(a: nat, b: nat): nat {
    if a <= b then a else b
  }

  /** How many (n, x) pairs a call estimates: the length of the shorter
      sequence, or of the only sequence; one for two scalars. */
  function PairCount(n: Arg, x: Arg): nat {
    match (n, x)
    case (Seq(ns), Seq(xs)) => Min(|ns|, |xs|)
    case (Seq(ns), Scalar(_)) => |ns|
    case (Scalar(_), Seq(xs)) => |xs|
    case (Scalar(_), Scalar(_)) => 1
  }

  /** The value an argument contributes to pair `i`; a scalar contributes
      itself to every pair. */
  function At(a: Arg, i: nat): real
    requires a.Seq? ==> i < |a.values|
  {
    match a
    case Scalar(v) => v
    case Seq(vs) => vs[i]
  }

  /** The first component of the estimator's (center, half-width) pair. */
  function CenterOf(e: Option<Interval>): Option<real> {
    match e
    case None => None
    case Some(iv) => Some(iv.center)
  }

  /** The second component of the estimator's (center, half-width) pair. */
  function HalfWidthOf(e: Option<Interval>): Option<ScaledRoot> {
    match e
    case None => None
    case Some(iv) => Some(iv.halfWidth)
  }

  /** The scalar `v` repeated `len` times. */
  function Repeat(v: real, len: nat): seq<real> {
    seq(len, _ => v)
  }

  /**
    Walks the positional pairs of `ns` and `xs` until the shorter runs out,
    appending each pair's center and half-width to the two columns.
   */
  function Pointwise(ns: seq<real>, xs: seq<real>, z: real): (r: Output)
    ensures r.Columns?
    ensures |r.centers| == Min(|ns|, |xs|) && |r.halfWidths| == Min(|ns|, |xs|)
    ensures forall i :: 0 <= i < |r.centers| ==>
      r.centers[i] == CenterOf(PointEstimate(ns[i], xs[i], z))
    ensures forall i :: 0 <= i < |r.halfWidths| ==>
      r.halfWidths[i] == HalfWidthOf(PointEstimate(ns[i], xs[i], z))
    decreases Min(|ns|, |xs|)
  {
    var m := Min(|ns|, |xs|);
    if m == 0 then Columns([], [])
    else
      var front := Pointwise(ns[..m - 1], xs[..m - 1], z);
      var e := PointEstimate(ns[m - 1], xs[m - 1], z);
      Columns(front.centers + [CenterOf(e)], front.halfWidths + [HalfWidthOf(e)])
  }

  /**
    The Agresti-Coull interval for scalar or sequence arguments. Two scalars
    give the estimator's result itself. A scalar beside a sequence is
    repeated to the sequence's length; two sequences are paired by position
    and the longer one's tail is dropped.
   */
  function AgrestiCoull(n: Arg, x: Arg, z: real): (r: Output)
    ensures r.Single? <==> n.Scalar? && x.Scalar?
    ensures r.Single? ==> r.estimate == PointEstimate(n.value, x.value, z)
    ensures r.Columns? ==>
      |r.centers| == PairCount(n, x) && |r.halfWidths| == PairCount(n, x)
    ensures r.Columns? ==> forall i :: 0 <= i < PairCount(n, x) ==>
      r.centers[i] == CenterOf(PointEstimate(At(n, i), At(x, i), z))
    ensures r.Columns? ==> forall i :: 0 <= i < PairCount(n, x) ==>
      r.halfWidths[i] == HalfWidthOf(PointEstimate(At(n, i), At(x, i), z))
  {
    match (n, x)
    case (Scalar(nv), Scalar(xv)) => Single(PointEstimate(nv, xv, z))
    case (Scalar(nv), Seq(xs)) => Pointwise(Repeat(nv, |xs|), xs, z)
    case (Seq(ns), Scalar(xv)) => Pointwise(ns, Repeat(xv, |ns|), z)
    case (Seq(ns), Seq(xs)) => Pointwise(ns, xs, z)
  }

  /** A column entry is undefined exactly where its pair's sample size is not
      positive, and then in both columns. */
  lemma UndefinedEntries(n: Arg, x: Arg, z: real, i: nat)
    requires !(n.Scalar? && x.Scalar?) && i < PairCount(n, x)
    ensures AgrestiCoull(n, x, z).centers[i].None? <==> At(n, i) <= 0.0
    ensures AgrestiCoull(n, x, z).halfWidths[i].None? <==> At(n, i) <= 0.0
  {
  }

  /** Each column entry is what the call on that pair's two scalars gives. */
  lemma EntryIsScalarCall(n: Arg, x: Arg, z: real, i: nat)
    requires !(n.Scalar? && x.Scalar?) && i < PairCount(n, x)
    ensures
      var single := AgrestiCoull(Scalar(At(n, i)), Scalar(At(x, i)), z).estimate;
      && AgrestiCoull(n, x, z).centers[i] == CenterOf(single)
      && AgrestiCoull(n, x, z).halfWidths[i] == HalfWidthOf(single)
  {
  }

  /** Broadcasting a scalar is the same as passing it repeated. */
  lemma BroadcastIsRepetition(a: seq<real>, v: real, z: real)
    ensures AgrestiCoull(Seq(a), Scalar(v), z) == AgrestiCoull(Seq(a), Seq(Repeat(v, |a|)), z)
    ensures AgrestiCoull(Scalar(v), Seq(a), z) == AgrestiCoull(Seq(Repeat(v, |a|)), Seq(a), z)
  {
  }

  /** Two sequences of different lengths give what their prefixes of the
      shorter length give: the longer one's tail is ignored. */
  lemma TruncationDropsTail(ns: seq<real>, xs: seq<real>, z: real)
    ensures
      var m := Min(|ns|, |xs|);
      AgrestiCoull(Seq(ns), Seq(xs), z) == AgrestiCoull(Seq(ns[..m]), Seq(xs[..m]), z)
  {
    var m := Min(|ns|, |xs|);
    var long := AgrestiCoull(Seq(ns), Seq(xs), z);
    var short := AgrestiCoull(Seq(ns[..m]), Seq(xs[..m]), z);
    assert long.centers == short.centers;
    assert long.halfWidths == short.halfWidths;
  }

  /** The broadcast example: sample sizes 1, 2, 3 with no successes. */
  lemma BroadcastExample()
    ensures AgrestiCoull(Seq([1.0, 2.0, 3.0]), Scalar(0.0), 2.0) == Columns(
      [Some(2.0 / 5.0), Some(1.0 / 3.0), Some(2.0 / 7.0)],
      [Some(ScaledRoot(2.0, 6.0 / 125.0)), Some(ScaledRoot(2.0, 1.0 / 27.0)),
       Some(ScaledRoot(2.0, 10.0 / 343.0))])
  {
    var r := AgrestiCoull(Seq([1.0, 2.0, 3.0]), Scalar(0.0), 2.0);
    WorkedCentersExact();
    assert r.centers == [Some(2.0 / 5.0), Some(1.0 / 3.0), Some(2.0 / 7.0)];
    assert r.halfWidths == [Some(ScaledRoot(2.0, 6.0 / 125.0)), Some(ScaledRoot(2.0, 1.0 / 27.0)),
                            Some(ScaledRoot(2.0, 10.0 / 343.0))];
  }
}
