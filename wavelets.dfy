/** The Fourier-domain responses wf(s_omega) of the wavelet families (wavelets/cwt.py:180-271).
    Each takes the scaled angular frequencies s_omega = omega * scale and returns one
    complex value per frequency. */
module Wavelets {
  import opened ComplexNumbers
  import opened FloatMath
  import opened Errors
  import opened FrequencyAxis

  /** The subclass of Cwt that supplies wf. */
  datatype Family = Morlet | MorletReal | Paul | DOG | Haar

  /** pi^(-1/4), the Morlet normalisation of Table 1 of Torrance and Compo,
      "A practical guide to wavelet analysis" (1998). */
  const MorletNorm: real := 0.75112554

  // ---------------------------------------------------------------- Morlet

  /** The unmasked Morlet term 0.75112554 * exp(-(x - omega0)^2 / 2). */
  function MorletHat(x: real, omega0: real, exp: real -> real): real {
    MorletNorm * exp(-((x - omega0) * (x - omega0)) / 2.0)
  }

  /** The value the mask H holds for scaled frequency x once the loop has run. */
  function Mask(x: real): real {
    if x < 0.0 then 0.0 else 1.0
  }

  /** Morlet.wf: the unmasked term times the mask. */
  function MorletResponse(s_omega: seq<real>, omega0: real, exp: real -> real): (r: seq<Complex>)
    ensures |r| == |s_omega|
  {
    seq(|s_omega|, i requires 0 <= i < |s_omega| => FromReal(MorletHat(s_omega[i], omega0, exp) * Mask(s_omega[i])))
  }

  /** The mask loop of Morlet.wf: H starts as all ones and every entry at a negative scaled
      frequency is set to zero. */
  method MorletMask(s_omega: seq<real>) returns (h: array<real>)
    ensures h.Length == |s_omega|
    ensures forall i :: 0 <= i < h.Length ==> (h[i] == 0.0 <==> s_omega[i] < 0.0)
    ensures forall i :: 0 <= i < h.Length ==> (h[i] == 1.0 <==> s_omega[i] >= 0.0)
  {
    h := new real[|s_omega|](_ => 1.0);
    var i := 0;
    while i < |s_omega|
      invariant 0 <= i <= |s_omega|
      invariant forall k :: 0 <= k < i ==> h[k] == Mask(s_omega[k])
      invariant forall k :: i <= k < |s_omega| ==> h[k] == 1.0
    {
      if s_omega[i] < 0.0 {
        h[i] := 0.0;
      }
      i := i + 1;
    }
  }

  /** Morlet.wf as the source computes it: the mask first, then the masked Gaussian. */
  method MorletWf(s_omega: seq<real>, omega0: real, exp: real -> real) returns (xhat: seq<Complex>)
    ensures xhat == MorletResponse(s_omega, omega0, exp)
  {
    var h := MorletMask(s_omega);
    xhat := seq(|s_omega|, i requires 0 <= i < |s_omega| && i < h.Length reads h =>
      FromReal(MorletHat(s_omega[i], omega0, exp) * h[i]));
    assert forall i :: 0 <= i < |s_omega| ==> h[i] == Mask(s_omega[i]);
  }

  /** With exp positive, the Morlet response vanishes exactly at the negative scaled frequencies. */
  lemma MorletZeroIffNegative(s_omega: seq<real>, omega0: real, ops: FloatOps, i: nat)
    requires ops.Sound() && i < |s_omega|
    ensures MorletResponse(s_omega, omega0, ops.exp)[i] == Zero <==> s_omega[i] < 0.0
  {
    var g := MorletHat(s_omega[i], omega0, ops.exp);
    assert g > 0.0;
  }

  /** On the frequency axis of an n-point transform at a positive scale, the Morlet response is
      zero exactly on the upper n - n/2 bins, the negative frequencies: an analytic wavelet. */
  lemma MorletAnalytic(n: nat, omega0: real, c: real, ops: FloatOps, i: nat)
    requires ops.Sound() && n > 0 && c > 0.0 && i < n
    ensures MorletResponse(Scaled(Omega(n, ops.pi), c), omega0, ops.exp)[i] == Zero <==> i >= n / 2
  {
    ScaledOmegaSign(n, ops.pi, c, i);
    MorletZeroIffNegative(Scaled(Omega(n, ops.pi), c), omega0, ops, i);
  }

  // ---------------------------------------------------------------- MorletReal

  /** MorletReal.wf entry, with its last two terms as written. */
  function MorletRealHat(x: real, omega0: real, exp: real -> real): real {
    MorletNorm * (exp(-((x - omega0) * (x - omega0)) / 2.0) +
                  exp(-((x + omega0) * (x + omega0)) / 2.0) -
                  exp(-(omega0 * omega0) / 2.0) +
                  exp(-(omega0 * omega0) / 2.0))
  }

  function MorletRealResponse(s_omega: seq<real>, omega0: real, exp: real -> real): (r: seq<Complex>)
    ensures |r| == |s_omega|
  {
    seq(|s_omega|, i requires 0 <= i < |s_omega| => FromReal(MorletRealHat(s_omega[i], omega0, exp)))
  }

  /** Under exact arithmetic the last two terms cancel, so MorletReal is the unmasked Morlet term
      at x plus the same term at -x: an even response, which is the spectrum of a real wavelet. */
  lemma MorletRealIsEven(x: real, omega0: real, exp: real -> real)
    ensures MorletRealHat(x, omega0, exp) == MorletHat(x, omega0, exp) + MorletHat(-x, omega0, exp)
    ensures MorletRealHat(-x, omega0, exp) == MorletRealHat(x, omega0, exp)
  {
    assert (-x - omega0) * (-x - omega0) == (x + omega0) * (x + omega0);
    assert (-x + omega0) * (-x + omega0) == (x - omega0) * (x - omega0);
  }

  // ---------------------------------------------------------------- Paul

  function Factorial(k: nat): (r: nat)
    ensures r >= 1
  {
    if k == 0 then 1 else k * Factorial(k - 1)
  }

  /** The product accumulated in normfactor: float(m) times 1, 2, ..., 2m-1. For m >= 1 it is
      m * (2m-1)!; for m <= 0 the range is empty and it stays m. */
  method PaulNormProduct(m: int) returns (p: int)
    ensures m >= 1 ==> p == m * Factorial(2 * m - 1)
    ensures m <= 0 ==> p == m
  {
    p := m;
    var i := 1;
    while i < 2 * m
      invariant 1 <= i
      invariant m >= 1 ==> i <= 2 * m && p == m * Factorial(i - 1)
      invariant m <= 0 ==> p == m
    {
      assert m >= 1 ==> p * i == m * Factorial(i) by {
        if m >= 1 {
          assert p * i == m * (i * Factorial(i - 1));
        }
      }
      p := p * i;
      i := i + 1;
    }
  }

  /** For a positive order the product is at least 1, so its square root is a positive real.
      (For m <= 0 the product stays m, which PaulNormProduct states.) */
  lemma PaulProductPositive(m: int)
    requires m >= 1
    ensures m * Factorial(2 * m - 1) >= 1
  {
    var f := Factorial(2 * m - 1);
    assert m * f >= 1 * f;
  }

  /** normfactor = 2^m / sqrt(m * (2m-1)!). */
  function PaulNormFactor(m: int, ops: FloatOps): (r: real)
    requires ops.Sound() && m >= 1
    ensures r > 0.0
  {
    PaulProductPositive(m);
    var d := ops.sqrt((m * Factorial(2 * m - 1)) as real);
    QuotientPositive(Pow2(m), d);
    Pow2(m) / d
  }

  /** normfactor * x^m * exp(-x), the Paul response on the lower half of the axis. */
  function PaulEntry(x: real, m: int, ops: FloatOps): real
    requires ops.Sound() && m >= 1
  {
    PaulNormFactor(m, ops) * Power(x, m) * ops.exp(-x)
  }

  /** Paul.wf. The first n/2 entries (n/2 taken as integer division) carry the response and the
      rest stay zero. For an order m <= 0 normfactor is 2^m / sqrt(0) or sqrt of a negative
      number, which is not finite; it only reaches the result when n/2 > 0. */
  function PaulResponse(s_omega: seq<real>, m: int, ops: FloatOps): (r: Result<seq<Complex>>)
    requires ops.Sound()
    ensures r.Success? ==> |r.value| == |s_omega|
  {
    var n := |s_omega|;
    if m <= 0 && n / 2 > 0 then Failure(NonFinite)
    else Success(seq(n, i requires 0 <= i < n =>
      if i < n / 2 then FromReal(PaulEntry(s_omega[i], m, ops)) else Zero))
  }

  /** Paul.wf as the source computes it: the normalisation loop, then a zero array whose first
      half is assigned. */
  method PaulWf(s_omega: seq<real>, m: int, ops: FloatOps) returns (r: Result<seq<Complex>>)
    requires ops.Sound()
    ensures r == PaulResponse(s_omega, m, ops)
  {
    var n := |s_omega|;
    var p := PaulNormProduct(m);
    var xhat := new real[n](_ => 0.0);
    if n / 2 > 0 {
      if p <= 0 {
        // 2^m / sqrt(p) is infinite (p == 0) or not a number (p < 0)
        return Failure(NonFinite);
      }
      PaulProductPositive(m);
      var normfactor := Pow2(m) / ops.sqrt(p as real);
      assert normfactor == PaulNormFactor(m, ops);
      PaulFillLower(xhat, s_omega, m, normfactor, ops);
    }
    assert forall i :: n / 2 <= i < n ==> xhat[i] == 0.0;
    r := Success(seq(n, i requires 0 <= i < n && i < xhat.Length reads xhat => FromReal(xhat[i])));
    PaulFromEntries(s_omega, m, ops, r.value);
  }

  /** xhat[0:n/2] = normfactor * s_omega[0:n/2]**m * exp(-s_omega[0:n/2]); the upper part of
      xhat is left as it was. */
  method PaulFillLower(xhat: array<real>, s_omega: seq<real>, m: int, normfactor: real, ops: FloatOps)
    requires ops.Sound() && m >= 1 && normfactor == PaulNormFactor(m, ops) && xhat.Length == |s_omega|
    modifies xhat
    ensures forall i :: 0 <= i < xhat.Length / 2 ==> xhat[i] == PaulEntry(s_omega[i], m, ops)
    ensures forall i :: xhat.Length / 2 <= i < xhat.Length ==> xhat[i] == old(xhat[i])
  {
    forall i | 0 <= i < xhat.Length / 2 {
      xhat[i] := normfactor * Power(s_omega[i], m) * ops.exp(-s_omega[i]);
    }
  }

  lemma PaulFromEntries(s_omega: seq<real>, m: int, ops: FloatOps, v: seq<Complex>)
    requires ops.Sound() && |v| == |s_omega| && (m >= 1 || |s_omega| / 2 == 0)
    requires forall i :: 0 <= i < |v| ==> v[i] == FromReal(if i < |v| / 2 then PaulEntry(s_omega[i], m, ops) else 0.0)
    ensures PaulResponse(s_omega, m, ops) == Success(v)
  {
    var spec := PaulResponse(s_omega, m, ops);
    assert spec.Success? && |spec.value| == |v|;
    forall i | 0 <= i < |v|
      ensures spec.value[i] == v[i]
    {
      if i < |v| / 2 {
        assert spec.value[i] == FromReal(PaulEntry(s_omega[i], m, ops));
      } else {
        assert spec.value[i] == Zero;
      }
    }
    assert spec.value == v;
  }

  /** Paul is analytic: on the axis at a positive scale and for order m >= 1, the response is
      non-zero exactly at the positive frequencies 0 < i < n/2; the zero frequency and the upper
      half give zero. */
  lemma PaulAnalytic(n: nat, m: int, c: real, ops: FloatOps, i: nat)
    requires ops.Sound() && n > 0 && m >= 1 && c > 0.0 && i < n
    ensures PaulResponse(Scaled(Omega(n, ops.pi), c), m, ops).Success?
    ensures PaulResponse(Scaled(Omega(n, ops.pi), c), m, ops).value[i] != Zero <==> 0 < i < n / 2
  {
    var s := Scaled(Omega(n, ops.pi), c);
    ScaledOmegaSign(n, ops.pi, c, i);
    if i < n / 2 {
      PaulEntrySign(s[i], m, ops);
    }
  }

  lemma PaulEntrySign(x: real, m: int, ops: FloatOps)
    requires ops.Sound() && m >= 1 && x >= 0.0
    ensures PaulEntry(x, m, ops) == 0.0 <==> x == 0.0
  {
    var a := PaulNormFactor(m, ops);
    var e := ops.exp(-x);
    if x > 0.0 {
      PowerPositive(x, m);
      var b := Power(x, m);
      MulLess(0.0, a, b);
      MulLess(0.0, a * b, e);
    } else {
      PowerOfZero(m);
    }
  }

  /** The upper n - n/2 entries of the Paul response are zero, whatever the frequencies. */
  lemma PaulUpperHalfZero(s_omega: seq<real>, m: int, ops: FloatOps, i: nat)
    requires ops.Sound() && PaulResponse(s_omega, m, ops).Success?
    requires |s_omega| / 2 <= i < |s_omega|
    ensures PaulResponse(s_omega, m, ops).value[i] == Zero
  {
  }

  // ---------------------------------------------------------------- DOG

  /** numpy's x ** m for an integer m; a negative power of a non-zero x is 1 / x^(-m). */
  function IntPower(x: real, m: int): real
    requires m >= 0 || x != 0.0
  {
    if m >= 0 then Power(x, m)
    else
      PowerNonZero(x, -m);
      1.0 / Power(x, -m)
  }

  /** 1j^m * x^m * exp(-x^2 / 2) / sqrt(gamma(m + 1/2)). */
  function DogEntry(x: real, m: int, ops: FloatOps): Complex
    requires ops.Sound() && (m >= 0 || x != 0.0) && ops.gamma(m as real + 0.5) > 0.0
  {
    var d := ops.sqrt(ops.gamma(m as real + 0.5));
    ScaleBy(IntPower(x, m) * ops.exp(-(x * x) / 2.0) / d, IPow(m))
  }

  /** DOG.wf. For a negative order the result is not finite when some frequency is zero
      (0 to a negative power) or gamma(m + 1/2) is not positive (sqrt of a negative number,
      or division by zero). */
  function DogResponse(s_omega: seq<real>, m: int, ops: FloatOps): (r: Result<seq<Complex>>)
    requires ops.Sound()
    ensures r.Success? ==> |r.value| == |s_omega|
  {
    if m < 0 && (ops.gamma(m as real + 0.5) <= 0.0 || exists i :: 0 <= i < |s_omega| && s_omega[i] == 0.0) then
      Failure(NonFinite)
    else
      Success(seq(|s_omega|, i requires 0 <= i < |s_omega| => DogEntry(s_omega[i], m, ops)))
  }

  /** The phase of the DOG response is fixed by the order: an even order gives a real response,
      an odd order a purely imaginary one. */
  lemma DogPhase(s_omega: seq<real>, m: int, ops: FloatOps, i: nat)
    requires ops.Sound() && DogResponse(s_omega, m, ops).Success? && i < |s_omega|
    ensures m % 2 == 0 ==> DogResponse(s_omega, m, ops).value[i].im == 0.0
    ensures m % 2 == 1 ==> DogResponse(s_omega, m, ops).value[i].re == 0.0
  {
  }

  /** A derivative of a Gaussian has zero mean: for m >= 1 the response at zero frequency is zero. */
  lemma DogZeroMean(s_omega: seq<real>, m: int, ops: FloatOps, i: nat)
    requires ops.Sound() && m >= 1 && i < |s_omega| && s_omega[i] == 0.0
    ensures DogResponse(s_omega, m, ops).Success?
    ensures DogResponse(s_omega, m, ops).value[i] == Zero
  {
    PowerOfZero(m);
  }

  // ---------------------------------------------------------------- Haar

  /** 4 * sin(x / 4)^2, the numerator of Haar.wf. */
  function HaarNumerator(x: real, sin: real -> real): real {
    4.0 * (sin(x / 4.0) * sin(x / 4.0))
  }

  /** The imaginary part of Haar entry i: the numerator over om[i] = s_omega[i] / scale, except
      that om[0] is replaced by 1. With a zero scale every other om[i] is infinite and the entry
      is zero. */
  function HaarEntry(s_omega: seq<real>, scale: real, i: nat, sin: real -> real): real
    requires i < |s_omega| && (i == 0 || s_omega[i] != 0.0)
  {
    if i == 0 then HaarNumerator(s_omega[0], sin)
    else if scale == 0.0 then 0.0
    else HaarNumerator(s_omega[i], sin) / (s_omega[i] / scale)
  }

  /** Haar.wf. An empty input fails at om[0]; a zero frequency at any index but 0 makes
      om[i] zero (or 0/0), and the entry is not finite. */
  function HaarResponse(s_omega: seq<real>, scale: real, sin: real -> real): (r: Result<seq<Complex>>)
    ensures r.Success? ==> |r.value| == |s_omega|
  {
    var n := |s_omega|;
    if n == 0 then Failure(EmptyIndex)
    else if exists i :: 1 <= i < n && s_omega[i] == 0.0 then Failure(NonFinite)
    else Success(seq(n, i requires 0 <= i < n => Complex(0.0, HaarEntry(s_omega, scale, i, sin))))
  }

  /** Haar.wf as the source computes it: om = s_omega / scale, the guard om[0] = 1, then the
      imaginary parts. */
  method HaarWf(s_omega: seq<real>, scale: real, sin: real -> real) returns (r: Result<seq<Complex>>)
    ensures r == HaarResponse(s_omega, scale, sin)
  {
    var n := |s_omega|;
    if n == 0 {
      return Failure(EmptyIndex);
    }
    if exists i :: 1 <= i < n && s_omega[i] == 0.0 {
      return Failure(NonFinite);
    }
    var haar := new Complex[n](_ => Zero);
    if scale == 0.0 {
      // om[i] is infinite for every i >= 1, so only entry 0 is non-zero
      haar[0] := Complex(0.0, HaarNumerator(s_omega[0], sin));
    } else {
      var om := new real[n](i requires 0 <= i < n => s_omega[i] / scale);
      om[0] := 1.0;
      forall i | 0 <= i < n {
        haar[i] := Complex(0.0, HaarNumerator(s_omega[i], sin) / om[i]);
      }
    }
    var spec := HaarResponse(s_omega, scale, sin);
    assert spec.Success? && |spec.value| == n;
    assert forall i :: 0 <= i < n ==> haar[i] == spec.value[i];
    r := Success(haar[..]);
    assert r.value == spec.value;
  }

  /** The guard at work on the frequency axis. Without it, om[0] would be 0 for n >= 2, since
      the scaled axis is zero at index 0. With it, the response is finite exactly when the scale
      is non-zero or n == 1, and entry 0 is zero. */
  lemma HaarGuard(n: nat, c: real, ops: FloatOps)
    requires ops.Sound() && n > 0
    ensures n >= 2 ==> Scaled(Omega(n, ops.pi), c)[0] == 0.0
    ensures HaarResponse(Scaled(Omega(n, ops.pi), c), c, ops.sin).Success? <==> c != 0.0 || n == 1
    ensures n >= 2 && c != 0.0 ==> HaarResponse(Scaled(Omega(n, ops.pi), c), c, ops.sin).value[0] == Zero
  {
    var s := Scaled(Omega(n, ops.pi), c);
    if n >= 2 {
      ScaledOmegaZeroAtOrigin(n, ops.pi, c);
      if c == 0.0 {
        assert s[1] == 0.0;
      } else {
        forall i | 1 <= i < n
          ensures s[i] != 0.0
        {
          ScaledOmegaNonZero(n, ops.pi, c, i);
        }
        assert s[0] / 4.0 == 0.0;
      }
    }
  }

  // ---------------------------------------------------------------- dispatch

  /** self.wf(s_omega) for the subclass family; scale is self.currentscale, which only Haar
      reads. The Morlet families never fail, Paul fails only for an order below 1, DOG only for
      a negative order, and Haar only on an empty input or a zero frequency past index 0. */
  function Response(family: Family, order: int, omega0: real, s_omega: seq<real>, scale: real, ops: FloatOps): (r: Result<seq<Complex>>)
    requires ops.Sound()
    ensures r.Success? ==> |r.value| == |s_omega|
    ensures family == Morlet || family == MorletReal ==> r.Success?
    ensures family == Paul && order >= 1 ==> r.Success?
    ensures family == DOG && order >= 0 ==> r.Success?
    ensures family == Haar ==>
      (r.Success? <==> |s_omega| > 0 && forall i :: 1 <= i < |s_omega| ==> s_omega[i] != 0.0)
  {
    match family
    case Morlet => Success(MorletResponse(s_omega, omega0, ops.exp))
    case MorletReal => Success(MorletRealResponse(s_omega, omega0, ops.exp))
    case Paul => PaulResponse(s_omega, order, ops)
    case DOG => DogResponse(s_omega, order, ops)
    case Haar => HaarResponse(s_omega, scale, ops.sin)
  }
}
