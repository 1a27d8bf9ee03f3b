# Agresti-Coull interval, modelled in Dafny

This project models `agresti_coull.py` of the `zpz/stats` repository. The
file computes the Agresti-Coull confidence interval for a binomial
proportion (Agresti and Coull, 1998). It has two parts:

- `_ac(n, x, z)`, the point estimator. For a non-positive sample size `n` it
  returns `(None, None)`. Otherwise it adds `z*z/2` pseudo-successes and
  `z*z` pseudo-trials and returns the center `p = (x + z*z/2) / (n + z*z)`
  and the half-width `d = z * sqrt(p * (1 - p) / (n + z*z))`.
- `agresti_coull(n, x, z)`, the broadcasting adapter. Two scalars go
  straight to `_ac`. A scalar beside a sequence is repeated to the
  sequence's length. Two sequences are zipped by position, which stops at
  the shorter one. `_ac` is applied to every pair and the results are
  collected into a list of centers and a list of half-widths, in input order.

Files:

- `optional.dfy`: module `Optional`, the `Option` datatype standing for the
  source's `None`.
- `estimator.dfy`: module `PointEstimator`, the point estimator
  `PointEstimate` and its properties.
- `broadcasting.dfy`: module `Broadcasting`, the argument type `Arg`, the
  result type `Output` and the adapter `AgrestiCoull`.

All arithmetic is exact over `real`. Dafny has no real square root, so the
half-width is the symbolic value `ScaledRoot(scale, radicand)`, standing for
`scale * sqrt(radicand)`. For the estimator, `scale` is `z` and `radicand`
is the source's `one_over_n * p * (1.0 - p)`. The predicate `Denotes(d)`
says which real number that is without a square root: `d*d` equals
`scale*scale*radicand`, and `d` has the sign of `scale`. `DenotesUnique`
proves that at most one number satisfies it. `Defined()` holds when the
radicand is non-negative. When it does not hold, `math.sqrt` raises a
domain error.

The comment table in the source lists `(0, 0): 0.5, 0.5`. The code's guard
`n <= 0` makes that row unreachable: the function returns `(None, None)`.
The model follows the code. `UnguardedZeroRow` proves both facts: the row is
the formula evaluated without the guard, and the estimator has no interval
for `n = 0`.

## Model

| member | source | states |
|---|---|---|
| `PointEstimator.PointEstimate` | agresti_coull.py:14-23 | There is no interval exactly when `n <= 0`. Otherwise the center times the adjusted trials `n + z*z` is the adjusted successes `x + z*z/2`. The half-width is `z` times the root of a radicand that, times `n + z*z`, is `p * (1 - p)`. |
| `PointEstimator.AdjustedWald` | agresti_coull.py:17-23 | For `n > 0` the estimator is exactly the Wald interval on `n + z*z` trials with `x + z*z/2` successes. |
| `PointEstimator.CenterClosedForm` | agresti_coull.py:17-18 | For `n > 0` the center is `(x + z*z/2) / (n + z*z)`. |
| `PointEstimator.CenterWithZTwo` | agresti_coull.py:18-21 | With `z = 2` the center is `(x + 2) / (n + 4)`. |
| `PointEstimator.HalfWidthSquared` | agresti_coull.py:23 | Any half-width `d` the result denotes has `d*d == z*z * p * (1 - p) / (n + z*z)`. |
| `PointEstimator.DenotesUnique` | agresti_coull.py:23 | The symbolic half-width `z * sqrt(radicand)` stands for at most one real number. |
| `PointEstimator.SqrtDomain` | agresti_coull.py:17-23 | For `n > 0` the square root is defined, so no domain error occurs, exactly when `-z*z/2 <= x <= n + z*z/2`. |
| `PointEstimator.ValidCountBounds` | agresti_coull.py:17-23 | For `n > 0`, `z != 0` and `0 <= x <= n`: `0 < p < 1` and the square-root argument is positive. |
| `PointEstimator.PositiveHalfWidth` | agresti_coull.py:23 | For `n > 0`, `z > 0` and `0 <= x <= n`, the half-width is positive. |
| `PointEstimator.Symmetry` | agresti_coull.py:25-32 | Swapping successes and failures (`x` to `n - x`) turns the center `p` into `1 - p` and leaves the half-width the same. |
| `PointEstimator.WorkedValuesHold` | agresti_coull.py:27-32 | For each worked row with `z = 2`, the exact center and half-width, rounded to four decimals, are the values listed. |
| `PointEstimator.WorkedCentersExact` | agresti_coull.py:27-32 | The worked rows' centers are exactly 2/5, 1/3, 2/7, 3/5, 2/3 and 5/7. |
| `PointEstimator.UnguardedZeroRow` | agresti_coull.py:15-26 | `(n, x) = (0, 0)` gives no interval. Without the guard the formula would give center 0.5 and half-width 0.5, as the comment row shows. |
| `Broadcasting.Pointwise` | agresti_coull.py:57-61 | The loop's two lists both have the length of the shorter input. Entry `i` holds the center and the half-width of the estimator on `(ns[i], xs[i])`. |
| `Broadcasting.AgrestiCoull` | agresti_coull.py:52-66 | Two scalars give the estimator's own result, not a sequence. Any other call gives two columns of length `PairCount`: the only sequence's length, or the shorter length of two sequences. Entry `i` is the estimator on pair `i`, where a scalar fills every position. |
| `Broadcasting.UndefinedEntries` | agresti_coull.py:58-61 | A column entry is `None` exactly where that pair's sample size is not positive, and then it is `None` in both columns. |
| `Broadcasting.EntryIsScalarCall` | agresti_coull.py:58-61 | Each column entry is what the adapter returns for that pair's two scalars. |
| `Broadcasting.BroadcastIsRepetition` | agresti_coull.py:53-56 | A scalar beside a sequence gives the same result as that scalar repeated to the sequence's length. |
| `Broadcasting.TruncationDropsTail` | agresti_coull.py:58 | Two sequences give the same result as their prefixes of the shorter length: the longer one's tail is dropped. |
| `Broadcasting.BroadcastExample` | agresti_coull.py:53-61 | Sample sizes `[1, 2, 3]` with a scalar `x = 0` and `z = 2` give centers 2/5, 1/3, 2/7 and the three matching half-widths, in that order. |

## Left out

- Floating point: all values are exact reals. The model does not reproduce
  IEEE-754 rounding or bit-exact results. Worked half-widths are checked to
  four decimals through their squares.
- `math.sqrt`: the model keeps the half-width symbolic (`ScaledRoot`). Dafny
  cannot construct a real square root, so the model characterises it through
  `Denotes` instead of computing it.
- The `ValueError` that `math.sqrt` raises for a negative argument is not
  raised. A negative radicand is kept in the result, marked by
  `Defined() == false`. `SqrtDomain` states exactly when that happens.
- Lines 62-64, the conversion of both lists to `np.ndarray` of float
  (where `None` becomes NaN): this is only a container and type change.
- The runtime `isinstance(..., collections.Iterable)` dispatch and its quirks
  are replaced by the tagged `Arg` type. Those quirks are: strings count as
  iterable, `len` fails on iterators without a length, and
  `collections.Iterable` is gone in newer Pythons.
- Type errors from non-numeric elements. They cannot arise over `real`.
- The default `z = 2.0`: callers pass `z` explicitly.
- PositiveHalfWidth: requires `z > 0`. For `z < 0` the source's half-width
  is negative, because `d = z * sqrt(...)`. `Denotes` states this sign rule.
