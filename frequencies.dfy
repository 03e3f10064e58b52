/** The angular-frequency axis of the transform (wavelets/cwt.py:101-102): integer
    frequency indices in FFT order, scaled by 2*pi/ndata. */
module FrequencyAxis {
  import opened FloatMath

  /** Python's list(range(lo, hi)). */
  function Range(lo: int, hi: int): (r: seq<int>)
    ensures |r| == if lo <= hi then hi - lo else 0
    ensures forall i :: 0 <= i < |r| ==> r[i] == lo + i
    decreases hi - lo
  {
    if lo >= hi then [] else [lo] + Range(lo + 1, hi)
  }

  /** list(range(0, n//2)) + list(range(-n//2, 0)). Python's // floors, and so does Dafny's /
      for a positive divisor. Entry i is the signed representative of FFT bin i: i itself in the
      first n/2 places, i - n afterwards. */
  function Indices(n: nat): (r: seq<int>)
    ensures |r| == n
    ensures forall i :: 0 <= i < n ==> r[i] == if i < n / 2 then i else i - n
  {
    var lower, upper := Range(0, n / 2), Range((-(n as int)) / 2, 0);
    assert (-(n as int)) / 2 == -(n - n / 2) by {
      if n % 2 == 0 {
        assert -(n as int) == 2 * (-(n / 2));
      } else {
        assert -(n as int) == 2 * (-(n / 2) - 1) + 1;
      }
    }
    lower + upper
  }

  /** Entry i of the axis is congruent to i modulo n: the axis lists every FFT bin once, in order. */
  lemma IndicesAreBins(n: nat, i: nat)
    requires i < n
    ensures Indices(n)[i] % n == i
  {
    var k := Indices(n)[i];
    assert k == if i < n / 2 then i else i - n;
    WrapAround(k, n);
  }

  /** A signed representative in [-n, n) reduced modulo n. */
  lemma WrapAround(k: int, n: int)
    requires n > 0 && -n <= k < n
    ensures k % n == if k < 0 then k + n else k
  {
  }

  /** The first n/2 entries are non-negative and the remaining n - n/2 are negative, so an odd n
      has one more negative entry than non-negative ones. */
  lemma IndicesSign(n: nat, i: nat)
    requires i < n
    ensures Indices(n)[i] >= 0 <==> i < n / 2
    ensures -(n - n / 2) <= Indices(n)[i] < n / 2
  {
  }

  /** Only index 0 holds frequency 0, and only when n >= 2: for n == 1 the axis is [-1]. */
  lemma IndicesZero(n: nat, i: nat)
    requires i < n
    ensures Indices(n)[i] == 0 <==> i == 0 && n >= 2
  {
  }

  /** omega = Indices(n) * (2*pi/n), line 101-102. */
  function Omega(n: nat, pi: real): (r: seq<real>)
    requires n > 0
    ensures |r| == n
  {
    var idx := Indices(n);
    seq(n, i requires 0 <= i < n => Frequency(idx[i], n, pi))
  }

  /** The angular frequency of signed bin k on an axis of n points: k * (2*pi/n). */
  function Frequency(k: int, n: nat, pi: real): real
    requires n > 0
  {
    k as real * (2.0 * pi / n as real)
  }

  /** The elementwise product omega * c. */
  function Scaled(v: seq<real>, c: real): (r: seq<real>)
    ensures |r| == |v|
  {
    seq(|v|, i requires 0 <= i < |v| => v[i] * c)
  }

  lemma ScaledOmegaAt(n: nat, pi: real, c: real, i: nat)
    requires n > 0 && i < n
    ensures Scaled(Omega(n, pi), c)[i] == Frequency(Indices(n)[i], n, pi) * c
  {
  }

  /** The sign of k * (2*pi/n) * c is the sign of k when pi, n and c are positive. */
  lemma FrequencySign(k: int, pi: real, n: nat, c: real)
    requires n > 0 && pi > 0.0 && c != 0.0
    ensures var w := Frequency(k, n, pi) * c;
      && (w == 0.0 <==> k == 0)
      && (c > 0.0 ==> (w < 0.0 <==> k < 0) && (w > 0.0 <==> k > 0))
  {
    var unit := 2.0 * pi / n as real;
    assert unit > 0.0;
    ProductSign(k as real, unit);
    var v := k as real * unit;
    if c > 0.0 {
      ProductSign(v, c);
    } else {
      ProductSign(v, -c);
      assert v * c == -(v * (-c));
    }
  }

  /** With pi > 0 and a positive scale c, the scaled frequency at index i is negative exactly
      at the upper n - n/2 indices, and zero exactly at index 0 (when n >= 2). */
  lemma ScaledOmegaSign(n: nat, pi: real, c: real, i: nat)
    requires n > 0 && pi > 0.0 && c > 0.0 && i < n
    ensures Scaled(Omega(n, pi), c)[i] < 0.0 <==> i >= n / 2
    ensures Scaled(Omega(n, pi), c)[i] == 0.0 <==> i == 0 && n >= 2
    ensures Scaled(Omega(n, pi), c)[i] > 0.0 <==> 0 < i < n / 2
  {
    IndicesSign(n, i);
    IndicesZero(n, i);
    ScaledOmegaAt(n, pi, c, i);
    FrequencySign(Indices(n)[i], pi, n, c);
  }

  /** With a non-zero scale c, only index 0 of the scaled axis can be zero. */
  lemma ScaledOmegaNonZero(n: nat, pi: real, c: real, i: nat)
    requires n > 0 && pi > 0.0 && c != 0.0 && 0 < i < n
    ensures Scaled(Omega(n, pi), c)[i] != 0.0
  {
    IndicesZero(n, i);
    ScaledOmegaAt(n, pi, c, i);
    FrequencySign(Indices(n)[i], pi, n, c);
  }

  /** Index 0 of the scaled axis is zero whenever n >= 2, whatever the scale. */
  lemma ScaledOmegaZeroAtOrigin(n: nat, pi: real, c: real)
    requires n >= 2
    ensures Scaled(Omega(n, pi), c)[0] == 0.0
  {
    assert Indices(n)[0] == 0;
  }
}
