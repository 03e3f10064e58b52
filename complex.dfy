/** Complex numbers over exact reals: the values NumPy keeps in its complex arrays,
    without the rounding of complex64/complex128. */
module ComplexNumbers {

  datatype Complex = Complex(re: real, im: real)

  const Zero: Complex := Complex(0.0, 0.0)

  /** A real sample or response value promoted to a complex one. */
  function FromReal(x: real): Complex {
    Complex(x, 0.0)
  }

  function Mul(a: Complex, b: Complex): Complex {
    Complex(a.re * b.re - a.im * b.im, a.re * b.im + a.im * b.re)
  }

  function Conj(a: Complex): Complex {
    Complex(a.re, -a.im)
  }

  /** Multiplication by a real factor. */
  function ScaleBy(k: real, a: Complex): Complex {
    Complex(k * a.re, k * a.im)
  }

  lemma SquareNonNegative(x: real)
    ensures x * x >= 0.0
  {
    if x < 0.0 {
      assert x * x == (-x) * (-x);
    }
  }

  /** The squared modulus |a|^2 = re^2 + im^2. */
  function AbsSquared(a: Complex): (r: real)
    ensures r >= 0.0
  {
    SquareNonNegative(a.re);
    SquareNonNegative(a.im);
    a.re * a.re + a.im * a.im
  }

  /** a times its conjugate is the real number |a|^2: the product getpower takes the real part of. */
  lemma ConjugateProduct(a: Complex)
    ensures Mul(a, Conj(a)) == FromReal(AbsSquared(a))
  {
  }

  lemma ParityOfQuarter(m: int)
    ensures m % 2 == (m % 4) % 2
  {
    var q, r := m / 4, m % 4;
    assert m == 4 * q + r;
    assert m == 2 * (2 * q) + r;
  }

  /** Python's 1.0j ** m for an integer m: the powers of the imaginary unit cycle with period 4. */
  function IPow(m: int): (r: Complex)
    ensures AbsSquared(r) == 1.0
    ensures m % 2 == 0 ==> r.im == 0.0
    ensures m % 2 == 1 ==> r.re == 0.0
  {
    var q := m % 4;
    ParityOfQuarter(m);
    if q == 0 then Complex(1.0, 0.0)
    else if q == 1 then Complex(0.0, 1.0)
    else if q == 2 then Complex(-1.0, 0.0)
    else Complex(0.0, -1.0)
  }
}
