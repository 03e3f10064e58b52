# Continuous wavelet transform (wavelets/cwt.py) in Dafny

This project models the Fourier-domain continuous wavelet transform of `wavelets/cwt.py`.
A `Cwt` object is built from a data series. Construction does the following:

- it chooses a set of scales, linear or logarithmic (`_setscales`);
- it lays out the angular-frequency axis in FFT order;
- it takes the FFT of the data once;
- for every scale in ascending order, it writes one row of the `nscale x ndata` coefficient
  matrix, `ifft(wf(omega * scale) * sqrt(2*pi*scale) * datahat)`, and emits a progress
  value `s*100//nscale`;
- it emits `finished` once at the end.

The subclasses Morlet, MorletReal, Paul, DOG and Haar supply `wf`, the wavelet's Fourier
transform. The accessors return the matrix, its power `|c|^2`, the scales and their count.

The modules:

- `complex.dfy` (`ComplexNumbers`): complex values, products, conjugates, `|c|^2` and powers
  of the imaginary unit.
- `errors.dfy` (`Errors`): the error kinds and the `Result`/`Option` wrappers.
- `floatmath.dfy` (`FloatMath`): the floating-point collaborators, which stay abstract.
  - `FloatOps` is a record of functions: `pi`, `exp`, `sqrt`, `sin`, `2**x`, `_log2`,
    `gamma`, `fft` and `ifft`.
  - `Sound()` states the only facts the proofs use: positivity, monotonicity of `2**x`,
    `2**0 = 1`, `sin(0) = 0`, and that the FFTs keep the length.
  - It also holds exact powers of two and integer powers.
- `frequencies.dfy` (`FrequencyAxis`): the integer frequency indices and the axis `omega`
  (lines 101-102).
- `scales.dfy` (`ScaleSets`): `_setscales` as a function of its inputs, in log and linear mode,
  with its error cases.
- `wavelets.dfy` (`Wavelets`): the `wf` of every family.
  - Morlet's mask loop is a method over an array.
  - Paul's normalisation loop and half-array assignment are methods.
  - Haar's `om[0] = 1` guard is a method.
  - Each method is proved equal to a response function, and the properties are proved about
    that function.
- `engine.dfy` (`CwtEngine`):
  - the signals and a `Listener` that records them in order;
  - `Row`, the `Sweep` of the scale loop and `Transform`, which specify the whole
    construction as a value;
  - the class `Cwt`, whose methods fill `scales` and the `cwt` matrix in place and are proved
    to produce exactly what `Transform` describes.

All arithmetic is exact (`real`, `int`). Properties such as "the scales strictly increase" or
"linear mode has 2**notes scales" hold under exact arithmetic. Floating-point rounding is not
modelled.

Where the floating-point source would produce `inf` or `nan` and carry on, the model stops
with `Failure(NonFinite)`. This covers:

- Paul with order below 1;
- DOG with a negative order at a zero frequency, or with `gamma(m + 1/2) <= 0`;
- Haar with a zero frequency past index 0;
- `sqrt(2*pi*scale)` of a negative scale.

Python's raising statements become `Failure` values.

Where the code and the behaviour its documentation describes differ, the model follows the
code:

- In linear mode, `nmax < 2` is not an error. `arange` then runs downwards and gives
  decreasing scales in `(nmax, 2]`. Only `nmax == 2` fails, because of the zero step.
- In log mode, `noctave == 0` gives an empty scale set and no error. Only a negative
  `noctave` fails, from `NP.zeros` with a negative size.
- With an empty data series, log mode fails at the logarithm of 0. Linear mode fails at
  `2*pi/ndata`.
- Haar's guard covers index 0 only. A zero frequency elsewhere, which happens at a zero
  scale, is not substituted.

## Model

| member | source | states |
|---|---|---|
| ComplexNumbers.AbsSquared | wavelets/cwt.py:159 | \|c\|^2 = re^2 + im^2 is never negative |
| ComplexNumbers.ConjugateProduct | wavelets/cwt.py:159 | c * conj(c) is the real number re^2 + im^2, with a zero imaginary part |
| ComplexNumbers.Mul | wavelets/cwt.py:114 | definition: the complex product (re1*re2 - im1*im2, re1*im2 + im1*re2) of psihat * datahat and of cwt * conj(cwt) |
| ComplexNumbers.Conj | wavelets/cwt.py:159 | definition: NP.conjugate, the same real part and the negated imaginary part |
| ComplexNumbers.IPow | wavelets/cwt.py:249 | 1j**m has modulus 1; it is real for even m and imaginary for odd m |
| FloatMath.Pow2Agrees | wavelets/cwt.py:139 | the exact real 2**k for a natural k is the integer 2**k |
| FloatMath.Pow2 | wavelets/cwt.py:139 | 2**notes for an integer notes, exactly: positive, below 1 for a negative exponent and at least 1 otherwise |
| FloatMath.Power | wavelets/cwt.py:231 | definition: x**m for a natural m, the product of m copies of x (used at lines 231 and 249) |
| FloatMath.PowerPositive | wavelets/cwt.py:231 | x**m is positive for a positive x |
| FloatMath.PowerNonZero | wavelets/cwt.py:249 | x**m is non-zero for a non-zero x |
| FloatMath.PowerOfZero | wavelets/cwt.py:249 | 0**m is 0 for m >= 1 |
| FrequencyAxis.Range | wavelets/cwt.py:101-102 | list(range(lo, hi)) has hi - lo entries lo, lo+1, ... (none when hi <= lo) |
| FrequencyAxis.Indices | wavelets/cwt.py:101-102 | the index list has ndata entries: i for the first ndata//2 places, then i - ndata, so it runs from (-ndata)//2 up to -1 |
| FrequencyAxis.IndicesAreBins | wavelets/cwt.py:101-102 | entry i is congruent to i modulo ndata, so every FFT bin appears once, in order |
| FrequencyAxis.IndicesSign | wavelets/cwt.py:101-102 | entries are non-negative exactly in the first ndata//2 places; all lie in [-(ndata - ndata//2), ndata//2) |
| FrequencyAxis.IndicesZero | wavelets/cwt.py:101-102 | only index 0 holds 0, and only when ndata >= 2 |
| FrequencyAxis.Omega | wavelets/cwt.py:101-102 | omega has ndata entries |
| FrequencyAxis.Scaled | wavelets/cwt.py:111 | omega * currentscale keeps the length |
| FrequencyAxis.FrequencySign | wavelets/cwt.py:101-111 | k * (2*pi/ndata) * c is zero iff k is; for c > 0 it has the sign of k |
| FrequencyAxis.ScaledOmegaSign | wavelets/cwt.py:101-111 | at a positive scale, s_omega[i] < 0 iff i >= ndata//2, and s_omega[i] == 0 iff i == 0 and ndata >= 2 |
| FrequencyAxis.ScaledOmegaNonZero | wavelets/cwt.py:101-111 | at a non-zero scale, s_omega is non-zero at every index but 0 |
| FrequencyAxis.ScaledOmegaZeroAtOrigin | wavelets/cwt.py:101-111 | s_omega[0] is 0 for ndata >= 2, whatever the scale |
| ScaleSets.Arange | wavelets/cwt.py:140 | arange has ceil((stop - start)/step) values, or none |
| ScaleSets.ArangeBounds | wavelets/cwt.py:140 | arange values lie in [start, stop) for a positive step, in (stop, start] for a negative one, and differ by step |
| ScaleSets.ArangeLength | wavelets/cwt.py:140 | definition: numpy.arange's count ceil((stop - start)/step), or 0 when that is not positive |
| ScaleSets.NotesPerOctave | wavelets/cwt.py:127-128 | notes <= 0 is replaced by 1, so notes is at least 1 |
| ScaleSets.LogScale | wavelets/cwt.py:135-136 | definition: scale j is ndata / (largestscale * 2**((nscale-1-j)/notes)) |
| ScaleSets.LogScales | wavelets/cwt.py:132-136 | definition: the nscale values LogScale(j) for j = 0 .. nscale-1 |
| ScaleSets.ScaleSet | wavelets/cwt.py:120-144 | definition: the scale set _setscales produces or the error it raises: ZeroDivision for largestscale 0 or a zero arange step, LogDomain for a non-positive log argument, NegativeDimension for a negative nscale, UnknownScaling for any other mode |
| ScaleSets.UnknownScalingFails | wavelets/cwt.py:142-143 | any mode other than "log" and "linear" fails with UnknownScaling |
| ScaleSets.LogNotesFallback | wavelets/cwt.py:127-128 | in log mode, any notes <= 0 gives the same result as notes = 1 |
| ScaleSets.LogSucceeds | wavelets/cwt.py:126-133 | log mode succeeds iff ndata > 0, largestscale > 0 and noctave >= 0; then nscale = notes * noctave |
| ScaleSets.LogShape | wavelets/cwt.py:126-136 | a successful log set has ndata > 0, largestscale > 0 and is the formula of line 135-136 with nscale = notes * noctave |
| ScaleSets.LogScalesIncrease | wavelets/cwt.py:134-136 | log scales are positive and strictly increase with j; the last equals ndata/largestscale |
| ScaleSets.LogLargestScale | wavelets/cwt.py:134-136 | a non-empty log set, of any length (one scale included), ends with ndata/largestscale |
| ScaleSets.LogScaleOrder | wavelets/cwt.py:135-136 | scale j is positive and below scale k for j < k; scale nscale-1 is ndata/largestscale |
| ScaleSets.LogScalesPositive | wavelets/cwt.py:134-136 | every log-mode scale is positive |
| ScaleSets.LinearSucceeds | wavelets/cwt.py:137-141 | linear mode succeeds iff largestscale != 0 and nmax != 2 |
| ScaleSets.LinearScales | wavelets/cwt.py:137-141 | linear scales are 2, 2+step, ..., consecutive values differing by step = (nmax-2)/2**notes; there are 2**notes of them (1 for notes < 0); for nmax > 2 they strictly increase inside [2, nmax), for nmax < 2 they strictly decrease inside (nmax, 2] |
| ScaleSets.LinearCount | wavelets/cwt.py:137-141 | a successful linear set has exactly 2**notes values (one for notes < 0), so it is never empty |
| ScaleSets.LinearProgression | wavelets/cwt.py:139-140 | the same facts for arange(2, nmax, (nmax-2)/2**notes): first value 2, common difference (nmax-2)/2**notes, 2**notes values, bounds and direction |
| Wavelets.MorletResponse | wavelets/cwt.py:194 | the Morlet response has one entry per frequency |
| Wavelets.MorletHat | wavelets/cwt.py:194 | definition: 0.75112554 * exp(-(x - omega0)^2 / 2) |
| Wavelets.Mask | wavelets/cwt.py:188-192 | definition: the value H[i] holds after the loop: 0 for a negative frequency, 1 otherwise |
| Wavelets.MorletMask | wavelets/cwt.py:188-192 | after the loop H[i] == 0 iff s_omega[i] < 0, and H[i] == 1 iff s_omega[i] >= 0 |
| Wavelets.MorletWf | wavelets/cwt.py:186-195 | Morlet.wf computed with the mask loop equals the response function |
| Wavelets.MorletZeroIffNegative | wavelets/cwt.py:188-194 | the Morlet response is zero exactly at the negative scaled frequencies |
| Wavelets.MorletAnalytic | wavelets/cwt.py:186-195 | on the axis at a positive scale, the Morlet response is zero exactly on the upper ndata - ndata//2 bins |
| Wavelets.MorletRealResponse | wavelets/cwt.py:211-214 | the MorletReal response has one entry per frequency |
| Wavelets.MorletRealHat | wavelets/cwt.py:211-214 | definition: the four exp terms of MorletReal.wf as written |
| Wavelets.MorletRealIsEven | wavelets/cwt.py:211-214 | the last two terms cancel: the response is the Morlet term at x plus the term at -x, an even function |
| Wavelets.Factorial | wavelets/cwt.py:227-228 | (2m-1)! is at least 1 |
| Wavelets.PaulNormProduct | wavelets/cwt.py:226-228 | the accumulated product is m * (2m-1)! for m >= 1, and stays m for m <= 0 |
| Wavelets.PaulProductPositive | wavelets/cwt.py:226-229 | for m >= 1 the product is at least 1, so its square root is a positive number |
| Wavelets.PaulNormFactor | wavelets/cwt.py:229 | normfactor = 2**m / sqrt(m * (2m-1)!) is positive |
| Wavelets.PaulEntry | wavelets/cwt.py:231 | definition: normfactor * x**m * exp(-x) |
| Wavelets.PaulResponse | wavelets/cwt.py:230-231 | a successful Paul response has one entry per frequency |
| Wavelets.PaulWf | wavelets/cwt.py:222-233 | Paul.wf computed with the product loop and the slice assignment equals the response function |
| Wavelets.PaulFillLower | wavelets/cwt.py:231 | xhat[0:n/2] receives normfactor * x**m * exp(-x); the rest of xhat is untouched |
| Wavelets.PaulFromEntries | wavelets/cwt.py:230-231 | a vector with the Paul entries below n/2 and zeros above is the Paul response |
| Wavelets.PaulAnalytic | wavelets/cwt.py:226-231 | on the axis at a positive scale with m >= 1, the response is non-zero exactly at 0 < i < ndata//2 |
| Wavelets.PaulEntrySign | wavelets/cwt.py:231 | for x >= 0 the Paul entry is zero iff x == 0 |
| Wavelets.PaulUpperHalfZero | wavelets/cwt.py:230-231 | the entries at indices >= n/2 are zero |
| Wavelets.DogResponse | wavelets/cwt.py:249-250 | a successful DOG response has one entry per frequency |
| Wavelets.IntPower | wavelets/cwt.py:249 | definition: numpy's x**m for an integer m, 1/x**(-m) for a negative m |
| Wavelets.DogEntry | wavelets/cwt.py:249-250 | definition: 1j**m * x**m * exp(-x^2/2) / sqrt(gamma(m + 1/2)) |
| Wavelets.DogPhase | wavelets/cwt.py:249 | the DOG response is real for even order and imaginary for odd order |
| Wavelets.DogZeroMean | wavelets/cwt.py:249-250 | for order >= 1 the response is zero at zero frequency |
| Wavelets.HaarResponse | wavelets/cwt.py:266-270 | a successful Haar response has one entry per frequency |
| Wavelets.HaarNumerator | wavelets/cwt.py:270 | definition: 4 * sin(x/4)^2 |
| Wavelets.HaarEntry | wavelets/cwt.py:267-270 | definition: the numerator over om[i] = s_omega[i]/scale, with om[0] replaced by 1 and 0 where om[i] is infinite (zero scale) |
| Wavelets.HaarWf | wavelets/cwt.py:265-271 | Haar.wf computed with the om array and the om[0] = 1 guard equals the response function |
| Wavelets.HaarGuard | wavelets/cwt.py:267-270 | on the axis, om[0] would be 0; with the guard the response is finite iff the scale is non-zero or ndata == 1, and entry 0 is 0 |
| Wavelets.Response | wavelets/cwt.py:186-271 | wf keeps the length; Morlet and MorletReal never fail, Paul of order >= 1 and DOG of order >= 0 never fail; Haar succeeds iff the input is non-empty and has no zero frequency past index 0 |
| CwtEngine.Listener.constructor | wavelets/cwt.py:81 | a new receiver has seen no signals |
| CwtEngine.Listener.Emit | wavelets/cwt.py:117-118 | emitting appends the signal to the ordered log |
| CwtEngine.PercentBounds | wavelets/cwt.py:117 | progress starts at 0, never decreases and stays below 100 |
| CwtEngine.PercentMonotone | wavelets/cwt.py:117 | s*100//nscale is monotone in s |
| CwtEngine.PercentBelow | wavelets/cwt.py:117 | s*100//nscale < 100 for s < nscale |
| CwtEngine.Percent | wavelets/cwt.py:117 | definition: the progress value scaleindex*100//nscale |
| CwtEngine.ProgressTrace | wavelets/cwt.py:117 | the progress trace of k rows has k signals |
| CwtEngine.ProgressOrdered | wavelets/cwt.py:117 | the progress trace starts with 0 and its values are nondecreasing and below 100 |
| CwtEngine.Row | wavelets/cwt.py:109-115 | a successful row has ndata coefficients |
| CwtEngine.Convolve | wavelets/cwt.py:113-115 | the inverse transform of psihat * sqrt(2*pi*c) * datahat has ndata coefficients |
| CwtEngine.Rows | wavelets/cwt.py:108-116 | the first k rows, one per scale |
| CwtEngine.Sweep | wavelets/cwt.py:108-117 | definition: the first k iterations of the loop: rows in ascending scale order with one progress signal each, frozen at the first failing row |
| CwtEngine.SweepAllSucceed | wavelets/cwt.py:108-117 | when every row succeeds, the loop yields all rows in scale order and one progress signal per row |
| CwtEngine.SweepFirstFailure | wavelets/cwt.py:108-117 | when row f is the first to fail, the loop stops with its error, having emitted exactly the progress of rows 0..f-1 |
| CwtEngine.SweepStep | wavelets/cwt.py:108-117 | one more iteration appends the row and its progress, or stops with the row's error and no signal |
| CwtEngine.SweepStuck | wavelets/cwt.py:108-117 | once a row has failed, further iterations change nothing |
| CwtEngine.SweepCases | wavelets/cwt.py:108-117 | every loop run either yields all rows with every progress signal, or has a first failing row f (every earlier row succeeds) and ends with row f's error and the progress of rows 0..f-1 |
| CwtEngine.FirstFailing | wavelets/cwt.py:108-117 | the first failing row: it fails, and every earlier row succeeds |
| CwtEngine.Transform | wavelets/cwt.py:95-118 | definition: the whole construction: the scale set, ZeroDivision for empty data, the loop over the FFT of the data, and finished after the last row |
| CwtEngine.UnknownScalingStopsEarly | wavelets/cwt.py:95-103 | an unknown mode fails before the matrix, the FFT or any signal |
| CwtEngine.TransformRows | wavelets/cwt.py:100-118 | a successful transform has nscale rows of ndata coefficients, row s is the row for scales[s], and the signals are the nscale progress values in order, then finished |
| CwtEngine.TransformSignals | wavelets/cwt.py:108-118 | finished is the last signal and appears only on success; every other signal at position i is the progress value of row i |
| CwtEngine.LogTransformSucceeds | wavelets/cwt.py:108-118 | with log scales, the transform succeeds for Morlet, MorletReal, Paul of order >= 1, DOG of order >= 0 and Haar |
| CwtEngine.Cwt.constructor | wavelets/cwt.py:95-98 | the object keeps the order, omega0 and largestscale, with no scales yet |
| CwtEngine.Cwt.SetScales | wavelets/cwt.py:120-144 | _setscales fills scales and nscale with the scale set, or reports its error |
| CwtEngine.Cwt.LogScaleArray | wavelets/cwt.py:132-136 | the log-mode loop fills the array with the formula of line 135-136 |
| CwtEngine.Cwt.Wf | wavelets/cwt.py:112 | wf dispatched on the family returns that family's response |
| CwtEngine.Cwt.RunScales | wavelets/cwt.py:108-117 | the loop fills the matrix row by row and emits progress exactly as the loop specification says, stopping at the first failing row |
| CwtEngine.Cwt.Advance | wavelets/cwt.py:109-117 | one iteration computes row s, and on success writes only row s of the matrix and emits one progress value |
| CwtEngine.Cwt.ComputeRow | wavelets/cwt.py:109-115 | currentscale becomes scales[s] and the result is the row for that scale |
| CwtEngine.Cwt.SetRow | wavelets/cwt.py:116 | row s of the matrix becomes the row; every other entry keeps its value |
| CwtEngine.Cwt.CoefficientsAre | wavelets/cwt.py:150-153 | a matrix whose entries equal the given rows reads back as those rows |
| CwtEngine.Cwt.Coefficients | wavelets/cwt.py:146-153 | getcoefficients has nscale rows of ndata entries |
| CwtEngine.Cwt.GetPower | wavelets/cwt.py:155-159 | getpower has the matrix's shape and each entry is \|c\|^2 >= 0 |
| CwtEngine.Cwt.GetScales | wavelets/cwt.py:167-171 | getscales has nscale values |
| CwtEngine.Cwt.GetNscale | wavelets/cwt.py:173-177 | getnscale is the number of scales and of matrix rows |
| CwtEngine.Cwt.Create | wavelets/cwt.py:95-118 | construction delivers exactly the signals of the transform; on success the object keeps largestscale as scale and holds the scale set, the FFT of the data and the transform's coefficient matrix; on failure it reports the transform's error |

## Left out

- FFT, IFFT, `exp`, `sqrt`, `sin`, `gamma`, `2**x` for a real x, `_log2` and pi are fields of
  `FloatOps`. They are never computed. The proofs assume only the facts in `FloatOps.Sound()`.
- Floating-point rounding, `complex64` storage of the matrix and the `+ 0.0001` bias in
  `_log2` are not modelled. `noctave` is the integer `_log2` returns for `ndata/largestscale/2`.
- Infinities and NaN are not modelled. Where the source would compute with them, the model
  stops with `NonFinite`, as listed above.
- `getangle` (line 161-165) is left out: `NP.angle` is a transcendental function.
- The shared class attribute `fourierwl`, which the `wf` of Morlet, MorletReal, Paul and DOG
  overwrites, is left out. Haar declares its own. No other
  part of the core reads it.
- The DOG import of `scipy.special.gamma` and its `ImportError` path are left out. `gamma`
  is always available as a field of `FloatOps`.
- `notifyProgress.emit` and `finished.emit` are not delivered through Qt signals. They are
  appended, in order, to one `Listener` log.
- MorletReal's unused mask `H` is left out. Its response is modelled as written.
- Wavelets.PaulResponse: `s_omega[0:n/2]` is a float slice index, which Python 3 rejects.
  The model takes `n/2` as integer division.
- ScaleSets.UnknownScalingFails: `raise (ValueError, ...)` raises a TypeError in Python 3.
  The model reports a generic `UnknownScaling` failure.
- FrequencyAxis.Indices: for odd `ndata`, line 101-102 puts `-(ndata//2 + 1)` at index
  `ndata//2`, where numpy's `fftfreq` puts `+ndata//2`. Both name the same FFT bin modulo
  `ndata`. The model keeps the source's list.
- The commented-out `HaarW` class and the `__main__` plotting demo are not part of this model.
- CwtEngine.SweepFirstFailure, CwtEngine.SweepStuck, CwtEngine.FirstFailing and
  CwtEngine.TransformSignals: "the loop stops at a failing row" and "finished only on
  success" describe the model's `NonFinite` convention. The program itself raises nothing in
  the loop, so once `_setscales` succeeds it always reaches `finished.emit` (line 118), with
  inf or NaN in the matrix.
- CwtEngine.Cwt.Create: the final `currentscale` (line 110), the last scale after the loop, is
  not stated in its contract. ComputeRow states it for each row.
