/** The floating-point collaborators of the transform, kept abstract, and the exact
    integer-exponent powers the model computes itself. */
module FloatMath {
  import opened ComplexNumbers

  /** The library functions the source calls. Each is an arbitrary function; Sound() lists the
      only facts about them the model relies on. */
  datatype FloatOps = FloatOps(
    pi: real,                            // numpy.pi
    exp: real -> real,                   // numpy.exp
    sqrt: real -> real,                  // numpy.sqrt
    sin: real -> real,                   // numpy.sin
    pow2: real -> real,                  // 2.0 ** x for a real exponent x
    log2: real -> int,                   // Cwt._log2 on a positive argument
    gamma: real -> real,                 // scipy.special.gamma
    fft: seq<Complex> -> seq<Complex>,   // numpy.fft.fft
    ifft: seq<Complex> -> seq<Complex>)  // numpy.fft.ifft
  {
    ghost predicate Sound() {
      pi > 0.0 &&
      (forall x :: exp(x) > 0.0) &&
      (forall x :: x > 0.0 ==> sqrt(x) > 0.0) &&
      (forall x :: x >= 0.0 ==> sqrt(x) >= 0.0) &&
      sin(0.0) == 0.0 &&
      (forall x :: pow2(x) > 0.0) &&
      (forall x, y :: x < y ==> pow2(x) < pow2(y)) &&
      pow2(0.0) == 1.0 &&
      (forall x :: x > 0.0 ==> gamma(x) > 0.0) &&
      (forall v :: |fft(v)| == |v|) &&
      (forall v :: |ifft(v)| == |v|)
    }
  }

  /** Python's 2 ** k (or 2.0 ** k) for an integer exponent k, exactly. */
  function Pow2(k: int): (r: real)
    ensures r > 0.0
    ensures k < 0 ==> r < 1.0
    ensures k >= 0 ==> r >= 1.0
    decreases if k < 0 then -k else k
  {
    if k == 0 then 1.0
    else if k > 0 then 2.0 * Pow2(k - 1)
    else Pow2(k + 1) / 2.0
  }

  /** 2 ** k for a natural exponent, as an integer. */
  function Pow2Nat(k: nat): (r: nat)
    ensures r >= 1
  {
    if k == 0 then 1 else 2 * Pow2Nat(k - 1)
  }

  lemma {:induction false} Pow2Agrees(k: nat)
    ensures Pow2(k) == Pow2Nat(k) as real
  {
    if k > 0 {
      Pow2Agrees(k - 1);
    }
  }

  /** x ** k for a natural exponent k, as numpy computes an array to an integer power. */
  function Power(x: real, k: nat): real {
    if k == 0 then 1.0 else x * Power(x, k - 1)
  }

  lemma {:induction false} PowerPositive(x: real, k: nat)
    requires x > 0.0
    ensures Power(x, k) > 0.0
  {
    if k > 0 {
      PowerPositive(x, k - 1);
    }
  }

  lemma {:induction false} PowerNonZero(x: real, k: nat)
    requires x != 0.0
    ensures Power(x, k) != 0.0
  {
    if k > 0 {
      PowerNonZero(x, k - 1);
      assert x * Power(x, k - 1) != 0.0;
    }
  }

  lemma PowerOfZero(k: nat)
    requires k >= 1
    ensures Power(0.0, k) == 0.0
  {
  }

  /** The least integer not below x (numpy.ceil). */
  function Ceil(x: real): (r: int)
    ensures x <= r as real < x + 1.0
  {
    -((-x).Floor)
  }

  // Facts of real arithmetic used by the proofs.

  lemma MulLess(a: real, b: real, p: real)
    requires a < b && p > 0.0
    ensures a * p < b * p
  {
    assert b * p - a * p == (b - a) * p;
  }

  lemma MulNonNegative(a: real, b: real)
    requires a >= 0.0 && b >= 0.0
    ensures a * b >= 0.0
  {
  }

  lemma QuotientPositive(a: real, b: real)
    requires a > 0.0 && b != 0.0
    ensures a / b > 0.0 <==> b > 0.0
  {
    if b > 0.0 {
      assert (a / b) * b == a;
    } else {
      assert (a / b) * b == a;
      assert (a / b) * (-b) == -a;
    }
  }

  lemma ProductSign(k: real, p: real)
    requires p > 0.0
    ensures k * p > 0.0 <==> k > 0.0
    ensures k * p < 0.0 <==> k < 0.0
    ensures k * p == 0.0 <==> k == 0.0
  {
    if k > 0.0 {
      assert k * p > 0.0;
    } else if k < 0.0 {
      assert (-k) * p > 0.0;
    }
  }
}
