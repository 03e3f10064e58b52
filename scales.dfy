/** Scale-set generation, Cwt._setscales (wavelets/cwt.py:120-144), as a function of its
    inputs. The class in engine.dfy fills its scales array from these definitions. */
module ScaleSets {
  import opened FloatMath
  import opened Errors

  /** The number of values numpy.arange(start, stop, step) produces: ceil((stop - start) / step),
      or none when that is not positive. */
  function ArangeLength(start: real, stop: real, step: real): nat
    requires step != 0.0
  {
    var c := Ceil((stop - start) / step);
    if c <= 0 then 0 else c
  }

  /** numpy.arange(start, stop, step) under exact arithmetic: start, start + step, ... up to but
      excluding stop. numpy refuses a zero step. */
  function Arange(start: real, stop: real, step: real): (r: seq<real>)
    requires step != 0.0
    ensures |r| == ArangeLength(start, stop, step)
  {
    seq(ArangeLength(start, stop, step), i requires 0 <= i => start + i as real * step)
  }

  /** Every value of arange lies in the half-open range from start towards stop, and
      consecutive values differ by step. */
  lemma ArangeBounds(start: real, stop: real, step: real, i: nat)
    requires step != 0.0 && i < |Arange(start, stop, step)|
    ensures step > 0.0 ==> start <= Arange(start, stop, step)[i] < stop
    ensures step < 0.0 ==> stop < Arange(start, stop, step)[i] <= start
    ensures i + 1 < |Arange(start, stop, step)| ==>
      Arange(start, stop, step)[i + 1] == Arange(start, stop, step)[i] + step
  {
    var q := (stop - start) / step;
    assert (i as real) < q by {
      assert i < Ceil(q);
      assert (i as real) <= Ceil(q) as real - 1.0;
    }
    StepBound(start, stop, step, i as real, q);
  }

  /** start + x*step lies between start and stop when 0 <= x < (stop - start)/step. */
  lemma StepBound(start: real, stop: real, step: real, x: real, q: real)
    requires step != 0.0 && q == (stop - start) / step && 0.0 <= x < q
    ensures step > 0.0 ==> start <= start + x * step < stop
    ensures step < 0.0 ==> stop < start + x * step <= start
  {
    assert q * step == stop - start;
    if step > 0.0 {
      MulLess(x, q, step);
      MulNonNegative(x, step);
    } else {
      MulLess(x, q, -step);
      assert x * (-step) == -(x * step);
      assert q * (-step) == -(q * step);
      MulNonNegative(x, -step);
    }
  }

  /** notes <= 0 is replaced by 1 in log mode (line 127-128). */
  function NotesPerOctave(notes: int): (r: int)
    ensures r >= 1
  {
    if notes <= 0 then 1 else notes
  }

  /** The log-mode exponent of scale j: (nscale - 1 - j) / notes, as a real (line 136). */
  function LogExponent(nscale: nat, notes: int, j: int): real
    requires notes >= 1
  {
    (nscale - 1 - j) as real / notes as real
  }

  function LogScale(ndata: nat, largestscale: real, notes: int, nscale: nat, j: int, ops: FloatOps): real
    requires ops.Sound() && largestscale != 0.0 && notes >= 1
  {
    ndata as real / (largestscale * ops.pow2(LogExponent(nscale, notes, j)))
  }

  /** scales[j] = ndata / (largestscale * 2 ** ((nscale - 1 - j) / notes)), line 135-136. */
  function LogScales(ndata: nat, largestscale: real, notes: int, nscale: nat, ops: FloatOps): seq<real>
    requires ops.Sound() && largestscale != 0.0 && notes >= 1
  {
    seq(nscale, j => LogScale(ndata, largestscale, notes, nscale, j, ops))
  }

  /** What _setscales leaves in self.scales, or the error it raises. */
  function ScaleSet(ndata: nat, largestscale: real, notes: int, scaling: string, ops: FloatOps): Result<seq<real>>
    requires ops.Sound()
  {
    if scaling == "log" then
      var notes := NotesPerOctave(notes);
      if largestscale == 0.0 then Failure(ZeroDivision)
      else
        var x := ndata as real / largestscale / 2.0;
        if x <= 0.0 then Failure(LogDomain)
        else
          var nscale := notes * ops.log2(x);
          if nscale < 0 then Failure(NegativeDimension)
          else Success(LogScales(ndata, largestscale, notes, nscale, ops))
    else if scaling == "linear" then
      if largestscale == 0.0 then Failure(ZeroDivision)
      else
        var nmax := ndata as real / largestscale / 2.0;
        var step := (nmax - 2.0) / Pow2(notes);
        if step == 0.0 then Failure(ZeroDivision)
        else Success(Arange(2.0, nmax, step))
    else
      Failure(UnknownScaling)
  }

  /** Any mode other than "log" and "linear" fails, whatever the other inputs. */
  lemma UnknownScalingFails(ndata: nat, largestscale: real, notes: int, scaling: string, ops: FloatOps)
    requires ops.Sound() && scaling != "log" && scaling != "linear"
    ensures ScaleSet(ndata, largestscale, notes, scaling, ops) == Failure(UnknownScaling)
  {
  }

  /** In log mode, notes = 0 (or any notes <= 0) behaves exactly as notes = 1. */
  lemma LogNotesFallback(ndata: nat, largestscale: real, notes: int, ops: FloatOps)
    requires ops.Sound() && notes <= 0
    ensures ScaleSet(ndata, largestscale, notes, "log", ops) == ScaleSet(ndata, largestscale, 1, "log", ops)
  {
  }

  /** Log mode succeeds exactly when ndata and largestscale are positive and the octave count
      Cwt._log2(ndata/largestscale/2) is not negative; the set then has notes * noctave scales. */
  lemma LogSucceeds(ndata: nat, largestscale: real, notes: int, ops: FloatOps)
    requires ops.Sound()
    ensures ScaleSet(ndata, largestscale, notes, "log", ops).Success? <==>
      ndata > 0 && largestscale > 0.0 && ops.log2(ndata as real / largestscale / 2.0) >= 0
    ensures ScaleSet(ndata, largestscale, notes, "log", ops).Success? ==>
      |ScaleSet(ndata, largestscale, notes, "log", ops).value| ==
        NotesPerOctave(notes) * ops.log2(ndata as real / largestscale / 2.0)
  {
    if largestscale != 0.0 {
      var x := ndata as real / largestscale / 2.0;
      if ndata > 0 {
        QuotientPositive(ndata as real, largestscale);
        assert x > 0.0 <==> ndata as real / largestscale > 0.0;
      } else {
        assert x == 0.0;
      }
      var notes' := NotesPerOctave(notes);
      var k := ops.log2(x);
      if k < 0 {
        assert notes' * k < 0 by { assert notes' * (-k) > 0; }
      } else {
        assert notes' * k >= 0;
      }
    }
  }

  lemma DivideByLarger(a: real, b: real, c: real)
    requires a > 0.0 && 0.0 < b < c
    ensures a / c < a / b
    ensures a / c > 0.0
  {
    assert (a / b) * b == a;
    assert (a / c) * c == a;
    MulLess(b, c, a / c);
    assert (a / c) * b < (a / b) * b;
  }

  /** A successful log-mode set is LogScales with positive ndata and largestscale. */
  lemma LogShape(ndata: nat, largestscale: real, notes: int, ops: FloatOps)
    requires ops.Sound() && ScaleSet(ndata, largestscale, notes, "log", ops).Success?
    ensures ndata > 0 && largestscale > 0.0
    ensures var r := ScaleSet(ndata, largestscale, notes, "log", ops).value;
      r == LogScales(ndata, largestscale, NotesPerOctave(notes), |r|, ops)
  {
    LogSucceeds(ndata, largestscale, notes, ops);
  }

  /** Log-mode scales are positive and strictly increase with the index: the smallest scale is
      at index 0 and the last one is ndata/largestscale, the largest scale. */
  lemma LogScalesIncrease(ndata: nat, largestscale: real, notes: int, ops: FloatOps, j: nat, k: nat)
    requires ops.Sound()
    requires ScaleSet(ndata, largestscale, notes, "log", ops).Success?
    requires j < k < |ScaleSet(ndata, largestscale, notes, "log", ops).value|
    ensures 0.0 < ScaleSet(ndata, largestscale, notes, "log", ops).value[j]
              < ScaleSet(ndata, largestscale, notes, "log", ops).value[k]
    ensures k == |ScaleSet(ndata, largestscale, notes, "log", ops).value| - 1 ==>
      ScaleSet(ndata, largestscale, notes, "log", ops).value[k] == ndata as real / largestscale
  {
    LogShape(ndata, largestscale, notes, ops);
    var r := ScaleSet(ndata, largestscale, notes, "log", ops).value;
    var notes' := NotesPerOctave(notes);
    assert r[j] == LogScale(ndata, largestscale, notes', |r|, j, ops);
    assert r[k] == LogScale(ndata, largestscale, notes', |r|, k, ops);
    LogScaleOrder(ndata, largestscale, notes', |r|, ops, j, k);
  }

  /** Whatever the number of scales, a non-empty log-mode set ends with ndata/largestscale, the
      largest scale: its exponent is 0 and 2 ** 0 is 1. */
  lemma LogLargestScale(ndata: nat, largestscale: real, notes: int, ops: FloatOps)
    requires ops.Sound()
    requires ScaleSet(ndata, largestscale, notes, "log", ops).Success?
    requires |ScaleSet(ndata, largestscale, notes, "log", ops).value| > 0
    ensures var r := ScaleSet(ndata, largestscale, notes, "log", ops).value;
      r[|r| - 1] == ndata as real / largestscale
  {
    LogShape(ndata, largestscale, notes, ops);
    var r := ScaleSet(ndata, largestscale, notes, "log", ops).value;
    var n := |r|;
    assert r[n - 1] == LogScale(ndata, largestscale, NotesPerOctave(notes), n, n - 1, ops);
    assert LogExponent(n, NotesPerOctave(notes), n - 1) == 0.0;
    assert ops.pow2(0.0) == 1.0;
    assert largestscale * ops.pow2(0.0) == largestscale;
  }

  lemma LogScaleOrder(ndata: nat, largestscale: real, notes: int, nscale: nat, ops: FloatOps, j: nat, k: nat)
    requires ops.Sound() && ndata > 0 && largestscale > 0.0 && notes >= 1 && j < k < nscale
    ensures 0.0 < LogScale(ndata, largestscale, notes, nscale, j, ops) < LogScale(ndata, largestscale, notes, nscale, k, ops)
    ensures k == nscale - 1 ==> LogScale(ndata, largestscale, notes, nscale, k, ops) == ndata as real / largestscale
  {
    ExponentOrder(nscale, notes, j, k);
    var ej, ek := LogExponent(nscale, notes, j), LogExponent(nscale, notes, k);
    PowerOrder(ops, ek, ej);
    ScaleOrder(ndata as real, largestscale, ops.pow2(ek), ops.pow2(ej));
    if k == nscale - 1 {
      assert ops.pow2(ek) == 1.0;
      assert largestscale * ops.pow2(ek) == largestscale;
    }
  }

  lemma PowerOrder(ops: FloatOps, a: real, b: real)
    requires ops.Sound() && a < b
    ensures 0.0 < ops.pow2(a) < ops.pow2(b)
  {
  }

  lemma ExponentOrder(nscale: nat, notes: int, j: nat, k: nat)
    requires notes >= 1 && j < k < nscale
    ensures LogExponent(nscale, notes, k) < LogExponent(nscale, notes, j)
    ensures k == nscale - 1 ==> LogExponent(nscale, notes, k) == 0.0
  {
    DivideOrder((nscale - 1 - k) as real, (nscale - 1 - j) as real, notes as real);
  }

  /** Every log-mode scale is positive. */
  lemma LogScalesPositive(ndata: nat, largestscale: real, notes: int, ops: FloatOps, j: nat)
    requires ops.Sound()
    requires ScaleSet(ndata, largestscale, notes, "log", ops).Success?
    requires j < |ScaleSet(ndata, largestscale, notes, "log", ops).value|
    ensures ScaleSet(ndata, largestscale, notes, "log", ops).value[j] > 0.0
  {
    LogShape(ndata, largestscale, notes, ops);
    var r := ScaleSet(ndata, largestscale, notes, "log", ops).value;
    LogScalePositive(ndata, largestscale, NotesPerOctave(notes), |r|, ops, j);
  }

  lemma LogScalePositive(ndata: nat, largestscale: real, notes: int, nscale: nat, ops: FloatOps, j: nat)
    requires ops.Sound() && ndata > 0 && largestscale > 0.0 && notes >= 1
    ensures LogScale(ndata, largestscale, notes, nscale, j, ops) > 0.0
  {
    var p := ops.pow2(LogExponent(nscale, notes, j));
    MulLess(0.0, p, largestscale);
    QuotientPositive(ndata as real, largestscale * p);
  }

  /** A larger power of two in the denominator gives a smaller scale. */
  lemma ScaleOrder(ndata: real, largestscale: real, pk: real, pj: real)
    requires ndata > 0.0 && largestscale > 0.0 && 0.0 < pk < pj
    ensures 0.0 < ndata / (largestscale * pj) < ndata / (largestscale * pk)
  {
    MulLess(pk, pj, largestscale);
    MulLess(0.0, pk, largestscale);
    DivideByLarger(ndata, largestscale * pk, largestscale * pj);
  }

  lemma DivideOrder(a: real, b: real, d: real)
    requires a < b && d > 0.0
    ensures a / d < b / d
  {
  }

  /** Linear mode succeeds unless largestscale is zero or nmax = ndata/largestscale/2 is exactly 2
      (a zero arange step). */
  lemma LinearSucceeds(ndata: nat, largestscale: real, notes: int, ops: FloatOps)
    requires ops.Sound()
    ensures ScaleSet(ndata, largestscale, notes, "linear", ops).Success? <==>
      largestscale != 0.0 && ndata as real / largestscale / 2.0 != 2.0
  {
    if largestscale != 0.0 {
      var nmax := ndata as real / largestscale / 2.0;
      var p := Pow2(notes);
      if nmax != 2.0 {
        assert ((nmax - 2.0) / p) * p == nmax - 2.0;
      }
    }
  }

  /** Linear mode: the arithmetic progression 2, 2 + step, ... with step = (nmax - 2) / 2**notes.
      Under exact arithmetic it has 2**notes values (one value when notes < 0), the first is 2,
      and they strictly increase inside [2, nmax) when nmax > 2; when nmax < 2 they strictly
      decrease inside (nmax, 2]. */
  lemma LinearScales(ndata: nat, largestscale: real, notes: int, ops: FloatOps, i: nat)
    requires ops.Sound()
    requires ScaleSet(ndata, largestscale, notes, "linear", ops).Success?
    requires i < |ScaleSet(ndata, largestscale, notes, "linear", ops).value|
    ensures var r := ScaleSet(ndata, largestscale, notes, "linear", ops).value;
      var nmax := ndata as real / largestscale / 2.0;
      && |r| == (if notes >= 0 then Pow2Nat(notes) else 1)
      && r[0] == 2.0
      && (i + 1 < |r| ==> r[i + 1] == r[i] + (nmax - 2.0) / Pow2(notes))
      && (nmax > 2.0 ==> 2.0 <= r[i] < nmax && (i + 1 < |r| ==> r[i] < r[i + 1]))
      && (nmax < 2.0 ==> nmax < r[i] <= 2.0 && (i + 1 < |r| ==> r[i + 1] < r[i]))
  {
    var nmax := ndata as real / largestscale / 2.0;
    var step := (nmax - 2.0) / Pow2(notes);
    assert ScaleSet(ndata, largestscale, notes, "linear", ops).value == Arange(2.0, nmax, step);
    LinearProgression(nmax, notes, i);
  }

  /** Under exact arithmetic a successful linear set has 2**notes values (one when notes < 0),
      so it is never empty. */
  lemma LinearCount(ndata: nat, largestscale: real, notes: int, ops: FloatOps)
    requires ops.Sound()
    requires ScaleSet(ndata, largestscale, notes, "linear", ops).Success?
    ensures |ScaleSet(ndata, largestscale, notes, "linear", ops).value| ==
      (if notes >= 0 then Pow2Nat(notes) else 1)
  {
    var nmax := ndata as real / largestscale / 2.0;
    StepCount(nmax - 2.0, Pow2(notes));
    if notes >= 0 {
      Pow2Agrees(notes);
    }
  }

  lemma LinearProgression(nmax: real, notes: int, i: nat)
    requires nmax != 2.0
    requires i < |Arange(2.0, nmax, (nmax - 2.0) / Pow2(notes))|
    ensures var r := Arange(2.0, nmax, (nmax - 2.0) / Pow2(notes));
      && |r| == (if notes >= 0 then Pow2Nat(notes) else 1)
      && r[0] == 2.0
      && (i + 1 < |r| ==> r[i + 1] == r[i] + (nmax - 2.0) / Pow2(notes))
      && (nmax > 2.0 ==> 2.0 <= r[i] < nmax && (i + 1 < |r| ==> r[i] < r[i + 1]))
      && (nmax < 2.0 ==> nmax < r[i] <= 2.0 && (i + 1 < |r| ==> r[i + 1] < r[i]))
  {
    var p := Pow2(notes);
    var step := (nmax - 2.0) / p;
    StepCount(nmax - 2.0, p);
    if notes >= 0 {
      Pow2Agrees(notes);
    }
    ArangeBounds(2.0, nmax, step, i);
    StepSign(nmax - 2.0, p);
  }

  /** (a / (a / p)) == p: arange's length before rounding up is 2**notes exactly. */
  lemma StepCount(a: real, p: real)
    requires a != 0.0 && p > 0.0
    ensures a / p != 0.0 && a / (a / p) == p
  {
    assert (a / p) * p == a;
  }

  lemma StepSign(a: real, p: real)
    requires p > 0.0
    ensures a > 0.0 ==> a / p > 0.0
    ensures a < 0.0 ==> a / p < 0.0
  {
    if a > 0.0 {
      QuotientPositive(a, p);
    } else if a < 0.0 {
      QuotientPositive(-a, p);
      assert a / p == -((-a) / p);
    }
  }
}
