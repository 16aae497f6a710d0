# go-matrixprofile: a Dafny model of the single-series matrix profile

This project models the matrix-profile core of `matrixprofile/matrixprofile.go`:

- z-normalisation (`zNormalize`);
- the rolling standard deviation computed from running sums (`movstd`);
- the FFT sliding dot product (`slidingDotProduct`, `multComplexSlice`);
- Mueen's similarity search (`Mass`);
- the distance profile with its self-join exclusion zone (`distanceProfile`);
- the two matrix-profile builders: `Stmp`, which is exhaustive, and `Stamp`, which samples a random order.

Numbers are exact reals. A distance is an extended real (`ExtReal.Ext`: a finite value, `+Inf` or `NaN`). It is compared with IEEE `<=`, which is false whenever `NaN` is involved.

The floating-point kernels the package calls are fields of a `Primitives.Numerics` record: gonum's FFT pair, `math.Sqrt`, and the distance formula of line 157. Its laws are two predicates:

- `Valid` holds the FFT's output lengths and the square-root law.
- `ConvolutionLaw` holds the convolution theorem for the unnormalised transform pair.

Every result is stated for all numerics that meet these laws.

Each Go `error` is a constructor of `Results.Error`. A run-time panic becomes `Error.Panic`. The panics modelled are:

- a negative `make` length;
- a slice `a[idx:idx+m]` with a negative `idx` or a negative `m` (so low > high or low < 0);
- `randIdx[i]` past the end of the permutation.

Modules follow the program's structure:

| file | module | contents |
|---|---|---|
| results.dfy | Results | `Result`, `Option`, `Error`, `MaxInt64` |
| extreal.dfy | ExtReal | distances and IEEE `<=` |
| series.dfy | Series | sums, mean, variance, running sums, dot product, convolution sum |
| primitives.dfy | Primitives | complex numbers and the `Numerics` laws |
| stats.dfy | Stats | `zNormalize`, `movstd` |
| slidingdot.dfy | SlidingDot | `multComplexSlice`, `slidingDotProduct` |
| distance.dfy | Distance | `Mass`, `distanceProfile` |
| fold.dfy | Fold | the running-minimum fold and what it computes |
| profile.dfy | Profile | `Stmp`, `Stamp` |

In an AB-join (`b` not nil), `Stmp` and `Stamp` size the profile and count their queries from `len(b) - m + 1`, but take each query window from `a` (`matrixprofile/matrixprofile.go:206-227`). The model follows the code:

- All queries succeed only if `b` is no longer than `a` (`Profile.AllProfiledIff`).
- When `a` is longer, its last windows are never queried.

Besides the two empty-input errors, the builders end in one of these ways:

- They fail with the error of the first `distanceProfile` call that fails.
- They panic on a negative profile length, when `m` exceeds the target's length by two or more.
- They succeed with an empty profile when `m` is exactly one more than the target's length, since then no query is made.
- The length-mismatch error of lines 231-233 cannot occur (`Profile.Sweep`).

## Model

| member | source | states |
|---|---|---|
| Stats.ZNormalize | matrixprofile/matrixprofile.go:12-41 | returns NoData (no buffer) exactly on empty input; reports zero deviation exactly when the series is constant, handing back the centred buffer, which is then all zeros; otherwise the std is positive and each output times the std is the input minus the mean |
| Stats.DeviationFacts | matrixprofile/matrixprofile.go:26-34 | the population variance is non-negative, the std is its square root, and the std is zero exactly when the series is constant |
| Stats.ZNormalizeCentres | matrixprofile/matrixprofile.go:19-38 | a z-normalised series sums to zero (mean 0) |
| Stats.ZNormalizeUnitVariance | matrixprofile/matrixprofile.go:26-38 | the squares of a z-normalised series of length n sum to n (population variance 1) |
| Series.SumSqZeroIff | matrixprofile/matrixprofile.go:26-32 | a sum of squares is zero exactly when every term is zero, which is why the zero-std test detects an all-zero centred buffer |
| Series.ConstantIffZeroVariance | matrixprofile/matrixprofile.go:26-32 | a series is constant exactly when its population variance is zero |
| Series.ConstantIffCenteredZero | matrixprofile/matrixprofile.go:21-24 | a series is constant exactly when every deviation from its mean is zero |
| Series.CenteredSumIsZero | matrixprofile/matrixprofile.go:19-24 | the deviations from the mean sum to zero |
| Stats.MovStd | matrixprofile/matrixprofile.go:44-73 | fails with the too-short error exactly when m <= 1, else with the too-long error exactly when m >= len(ts); on success has len(ts) - m + 1 entries |
| Series.Cumulative | matrixprofile/matrixprofile.go:55-65 | the running sums `c` (and `csqr`, taken over the squares) have one more entry than the series, start at 0 and end at the total sum of the series |
| Series.CumulativeIsPrefixSum | matrixprofile/matrixprofile.go:55-65 | the running-sum array holds at i the sum of the first i samples |
| Series.WindowSumFromPrefix | matrixprofile/matrixprofile.go:55-69 | c[i+m] - c[i] is the sum of the window ts[i..i+m) |
| Series.WindowSumSqFromPrefix | matrixprofile/matrixprofile.go:55-69 | csqr[i+m] - csqr[i] is the sum of squares of the window ts[i..i+m) |
| Series.VarianceFromSums | matrixprofile/matrixprofile.go:69 | the population variance equals (sum of squares)/m - (sum)^2/m^2, the moment formula under the square root |
| Stats.WindowMoments | matrixprofile/matrixprofile.go:55-69 | the running-sum expression under the square root at offset i is the population variance of window i |
| Stats.MovStdAt | matrixprofile/matrixprofile.go:67-70 | for valid m, entry i of movstd is the standard deviation of window i |
| Stats.MovStdIsWindowStd | matrixprofile/matrixprofile.go:44-73 | for valid m, every entry of movstd is the standard deviation of its window |
| Stats.MovStdOfConstant | matrixprofile/matrixprofile.go:44-73 | every window of a constant series has rolling deviation 0 |
| SlidingDot.MultComplexSlice | matrixprofile/matrixprofile.go:110-120 | fails exactly when the lengths differ; otherwise the output has the same length and entry i is a[i]*b[i] |
| SlidingDot.MultComplexSliceConvolves | matrixprofile/matrixprofile.go:93-120 | for two equally long signals, multComplexSlice of their spectra succeeds, and its inverse transform is n times the circular convolution of the signals at every index |
| SlidingDot.ReversePaddedShape | matrixprofile/matrixprofile.go:88-91 | the first m entries of `qpad`, read backwards, are the query, and every later entry up to the series' length is zero |
| SlidingDot.SlidingDotProduct | matrixprofile/matrixprofile.go:76-108 | checks 2m >= n before m < 2 and fails with the matching error; succeeds exactly when 2 <= m and 2m < n, with n - m + 1 entries; its spectra always have equal length, so the multComplexSlice error cannot occur |
| SlidingDot.ConvolutionTail | matrixprofile/matrixprofile.go:88-91 | the zero padding after the query adds nothing to the convolution sum |
| SlidingDot.ConvolutionHead | matrixprofile/matrixprofile.go:88-105 | the first J terms of the convolution at m-1+i are the dot product of the last J query values with the matching values of window i |
| SlidingDot.ConvolutionIsWindowDot | matrixprofile/matrixprofile.go:88-105 | the full circular convolution at m-1+i is the dot product of the query with window i |
| SlidingDot.CorrelationAt | matrixprofile/matrixprofile.go:93-101 | under the convolution theorem, entry m-1+i of the inverse transform is n times the convolution sum |
| SlidingDot.SlidingDotProductAt | matrixprofile/matrixprofile.go:103-105 | entry i of the output is the dot product of the query with window i of the series |
| SlidingDot.SlidingDotProductIsWindowDot | matrixprofile/matrixprofile.go:76-108 | every entry of the output is the dot product of the query with its window |
| Distance.Mass | matrixprofile/matrixprofile.go:123-160 | checks m < 2 before 2m >= n, then fails with the zero-std error exactly for a constant query; succeeds exactly when 2 <= m, 2m < n and the query is not constant, with n - m + 1 entries; the length-mismatch error of line 150 cannot occur |
| Distance.MassComparesWindows | matrixprofile/matrixprofile.go:135-158 | entry i is the distance formula applied to the dot product of the z-normalised query with window i and that window's standard deviation |
| Distance.Exclude | matrixprofile/matrixprofile.go:180-192 | entries with idx - m/2 <= i < idx + m/2 become +Inf; every other entry is unchanged |
| Distance.DistancesAt | matrixprofile/matrixprofile.go:155-158 | one distance per offset: entry i applies the distance formula to the i-th sliding dot product and the i-th window deviation |
| Distance.Target | matrixprofile/matrixprofile.go:166-169 | a self-join (b nil) compares `a` with itself; otherwise the query is compared with `b` |
| Distance.DistanceProfile | matrixprofile/matrixprofile.go:163-194 | fails when idx + m > len(a), panics when the slice `a[idx:idx+m]` has a negative idx or a negative m (so low > high or low < 0), otherwise fails exactly as Mass on window idx of a against b (or a); succeeds exactly when the window is inside a, 2 <= m, 2m < len(target) and the window is not constant; in a self-join the zone entries are +Inf and the others are Mass's values; in an AB-join every entry is Mass's value |
| Distance.SelfJoinHidesQuery | matrixprofile/matrixprofile.go:180-192 | in a successful self-join the query's own offset is +Inf |
| Fold.Pick | matrixprofile/matrixprofile.go:235-238 | a candidate at most the current value, ties included, replaces the pair, so the later offset wins a tie; a larger candidate, or any comparison with NaN, leaves the pair unchanged |
| Fold.ColumnFold | matrixprofile/matrixprofile.go:218-241 | a column with no profiles keeps the initial (+Inf, MaxInt64); otherwise the result is either that initial pair or the (value, offset) of one of the folded profiles |
| Fold.PickNeverIncreases | matrixprofile/matrixprofile.go:234-239 | a fold step never raises a profile value and never stores NaN |
| Fold.ColumnFoldIsBest | matrixprofile/matrixprofile.go:218-241 | the fold of a column is +Inf and MaxInt64 when every value is NaN; otherwise it is the minimum of the comparable values, and the index is the offset of the last occurrence of that minimum in visit order |
| Fold.ColumnFoldNeverNaN | matrixprofile/matrixprofile.go:218-241 | the running profile never holds NaN |
| Fold.IsBestUnique | matrixprofile/matrixprofile.go:218-241 | that characterisation determines the profile value and the index uniquely |
| Fold.BestValueOrderFree | matrixprofile/matrixprofile.go:279-294 | the profile value depends only on which values were folded, not on their order or offsets |
| Fold.LargestOffsetWins | matrixprofile/matrixprofile.go:226-241 | with offsets visited in increasing order, the index is the largest offset attaining the minimum, because ties overwrite |
| Fold.FoldStep | matrixprofile/matrixprofile.go:234-239 | folding one more profile extends every column by that profile's entry |
| Fold.FoldedIsBest | matrixprofile/matrixprofile.go:218-241 | every column of a folded profile meets the minimum-and-last-offset characterisation |
| Profile.Count | matrixprofile/matrixprofile.go:206-216 | the profile length is the target's length minus m plus one: len(a) - m + 1 in a self-join, len(b) - m + 1 otherwise |
| Profile.FoldIn | matrixprofile/matrixprofile.go:234-239 | the inner loop folds a distance profile into the running profile column by column, and no entry grows |
| Profile.Sweep | matrixprofile/matrixprofile.go:226-241 | succeeds exactly when every visited query has a distance profile; otherwise returns the error of the first that fails; on success the profile has n - m + 1 entries and is the fold of all the distance profiles; the length-mismatch error cannot occur |
| Profile.Stmp | matrixprofile/matrixprofile.go:197-242 | fails for an empty a, then for a non-nil empty b, then panics for a negative profile length; otherwise succeeds exactly when every query 0..n-m has a distance profile, failing with the first error otherwise; on success each entry is the minimum over all queries, with the index of the last query attaining it |
| Profile.Stamp | matrixprofile/matrixprofile.go:245-295 | fails first for sample 0, then as Stmp; visits the first int((n-m+1)*sample) offsets of the permutation and panics if that is more than the permutation holds; on success each entry is the minimum over the visited queries, with the index of the last one in visit order attaining it |
| Profile.TruncToInt | matrixprofile/matrixprofile.go:279 | Go's int conversion truncates toward zero: the result lies within one unit of its argument, between it and zero |
| Profile.Samples | matrixprofile/matrixprofile.go:279 | the number of offsets Stamp visits is the product n * sample truncated toward zero; it is n for sample 1, and between 0 and n for a sample between 0 and 1 |
| Profile.Visited | matrixprofile/matrixprofile.go:279-280 | the offsets Stamp reads are a prefix of the permutation: none for k <= 0, the first k for k up to its length, and all of it beyond that (where the next read panics) |
| Profile.FullSampleAgrees | matrixprofile/matrixprofile.go:197-295 | over a permutation of all offsets, `full` succeeds exactly when every query in increasing order succeeds and then holds the minimum of each column with the last offset attaining it, as Stmp promises; `sampled` succeeds exactly when every query in permuted order succeeds and then holds the minimum in visit order, as Stamp with sample 1.0 promises; the two succeed together and then have the same profile values |
| Profile.AllProfiledIff | matrixprofile/matrixprofile.go:163-230 | for n - m + 1 >= 1 queries, all succeed exactly when 2 <= m, 2m < len(target), the target is no longer than a, and no query window is constant |
| Profile.PermutedProfiled | matrixprofile/matrixprofile.go:278-283 | all queries over a permutation succeed exactly when all queries in increasing order do |
| Fold.ReorderedColumn | matrixprofile/matrixprofile.go:278-290 | when the profiles are visited in a permuted order, every column holds the same values as before |
| Fold.ReorderedSameProfile | matrixprofile/matrixprofile.go:278-294 | folding the same profiles in a permuted order gives the same profile values, whatever the offsets recorded |
| Profile.PermutedProfiles | matrixprofile/matrixprofile.go:278-283 | the distance profiles visited in a permuted order are Stmp's profiles reordered by the permutation |
| ExtReal.LeTotal | matrixprofile/matrixprofile.go:235 | the distance comparison is total on non-NaN values |
| ExtReal.LeAntisymmetric | matrixprofile/matrixprofile.go:235 | two distances that are each <= the other are equal |
| ExtReal.LeNeverNaN | matrixprofile/matrixprofile.go:235 | a comparison involving NaN is false |

## Left out

- The FFT (`fourier.NewFFT`, `Coefficients`, `Sequence`) is a foreign library computing in floating point. It is the `fwd`/`inv` pair of `Numerics`, constrained only by its output lengths and the convolution theorem.
- `math.Sqrt` and `math.Abs` are left out: `Numerics.root` satisfies only the square-root law on non-negative input. The distance formula of line 157 is the uninterpreted `Numerics.dist`, so no property of the distance values themselves is claimed.
- `stat.Mean` is taken to be the exact arithmetic mean of the reals.
- Floating-point rounding is not modelled anywhere: all arithmetic is exact.
- Stats.MovStd: `float64(m*m)` is written as the square of the real `m`. The 64-bit overflow of `m*m` for huge windows is not modelled.
- The NaN that `math.Sqrt` returns for a negative rounding residue is not modelled, since exact arithmetic never produces one. NaN distances can still enter the fold through `Numerics.dist`, and the fold handles them as IEEE `<=` does.
- `rand.Perm` is randomness: the permutation is a parameter of `Stamp`. `Fold.IsPermutation` states what `rand.Perm(n)` returns, and the lemmas relating Stamp to Stmp require it.
- Profile.Stamp: the product `float64(n-m+1)*sample` is exact, and `sample` is a real. NaN or infinite samples are not modelled, nor is Go's out-of-range float-to-int conversion.
- Profile.FullSampleAgrees: it states nothing about which error is returned when both builders fail. The visit order decides which failing query is met first, and different windows fail with different errors (a constant window versus one beyond the end of `a`).
- The k-dimensional MSTOMP code (`NewK`, `crossCorrelate`, `columnWiseSort`, `MStomp`) is not part of this model; only its tests are available, not its implementation.
- Go's distinction between a nil and an empty `a` is not modelled: both give the same error. The distinction for `b` is kept: `None` is nil, and `Some([])` is non-nil and empty.
