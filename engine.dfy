/** The transform, Cwt.__init__ and the accessors (wavelets/cwt.py:65-177): the scale set,
    the frequency axis, one FFT of the data, then one coefficient row per scale, with a
    progress signal after each row and a finished signal at the end. */
module CwtEngine {
  import opened ComplexNumbers
  import opened FloatMath
  import opened Errors
  import opened FrequencyAxis
  import opened ScaleSets
  import opened Wavelets

  /** What the two signals carry: notifyProgress(percent) after each row, finished once after
      the last row. */
  datatype Signal = Progress(percent: int) | Finished

  /** The receiver of both signals, which keeps them in the order they were emitted. */
  class Listener {
    var emitted: seq<Signal>

    constructor()
      ensures emitted == []
    {
      emitted := [];
    }

    method Emit(s: Signal)
      modifies this
      ensures emitted == old(emitted) + [s]
    {
      emitted := emitted + [s];
    }
  }

  /** The progress value after row s: scaleindex * 100 // nscale. */
  function Percent(s: nat, nscale: nat): int
    requires s < nscale
  {
    s * 100 / nscale
  }

  /** Progress values start at 0, never decrease, and stay below 100. */
  lemma PercentBounds(s: nat, t: nat, nscale: nat)
    requires s <= t < nscale
    ensures Percent(0, nscale) == 0
    ensures 0 <= Percent(s, nscale) <= Percent(t, nscale) < 100
  {
    PercentMonotone(0, s, nscale);
    PercentMonotone(s, t, nscale);
    PercentBelow(t, nscale);
  }

  lemma PercentMonotone(s: nat, t: nat, nscale: nat)
    requires s <= t < nscale
    ensures Percent(s, nscale) <= Percent(t, nscale)
  {
    DivideMonotone(s * 100, t * 100, nscale);
  }

  lemma PercentBelow(t: nat, nscale: nat)
    requires t < nscale
    ensures Percent(t, nscale) < 100
  {
    DivideBelow(t * 100, 100, nscale);
  }

  lemma DivideMonotone(a: nat, b: nat, d: nat)
    requires a <= b && d > 0
    ensures a / d <= b / d
  {
    var qa, qb := a / d, b / d;
    assert qa * d <= a;
    assert b < (qb + 1) * d;
    MulCancel(qa, qb + 1, d);
  }

  lemma DivideBelow(a: nat, q: nat, d: nat)
    requires a < q * d
    ensures a / d < q
  {
    var qa := a / d;
    assert qa * d <= a;
    MulCancel(qa, q, d);
  }

  lemma MulCancel(x: int, y: int, d: int)
    requires x * d < y * d && d > 0
    ensures x < y
  {
  }

  /** The progress signals of the first k rows. */
  function ProgressTrace(k: nat, nscale: nat): (r: seq<Signal>)
    requires k <= nscale
    ensures |r| == k
  {
    seq(k, s requires 0 <= s < k => Progress(Percent(s, nscale)))
  }

  /** The wavelet family and its parameters: the subclass, self.order and self.omega0. */
  datatype Basis = Basis(family: Family, order: int, omega0: real)

  /** Row s of the coefficient matrix for scale c:
      ifft(wf(omega * c) * sqrt(2 * pi * c) * datahat). A negative scale makes the square root
      not a number. */
  function Row(b: Basis, omega: seq<real>, datahat: seq<Complex>, c: real, ops: FloatOps): (r: Result<seq<Complex>>)
    requires ops.Sound() && |datahat| == |omega|
    ensures r.Success? ==> |r.value| == |omega|
  {
    var psihat := Response(b.family, b.order, b.omega0, Scaled(omega, c), c, ops);
    if psihat.Failure? then Failure(psihat.error)
    else if c < 0.0 then Failure(NonFinite)
    else Success(Convolve(psihat.value, datahat, c, ops))
  }

  /** Lines 113-115: the response times sqrt(2 * pi * c), times the data spectrum, transformed
      back. */
  function Convolve(psihat: seq<Complex>, datahat: seq<Complex>, c: real, ops: FloatOps): (w: seq<Complex>)
    requires ops.Sound() && |psihat| == |datahat|
    ensures |w| == |datahat|
  {
    var k := ops.sqrt(2.0 * ops.pi * c);
    ops.ifft(seq(|datahat|, t requires 0 <= t < |datahat| => Mul(ScaleBy(k, psihat[t]), datahat[t])))
  }

  /** What the transform hands back: the coefficient rows or the error that stopped it, and
      the signals emitted on the way. */
  datatype Outcome = Outcome(rows: Result<seq<seq<Complex>>>, emitted: seq<Signal>)

  /** The first k iterations of the scale loop: rows in ascending scale order, a progress
      signal after each, and nothing more once a row has failed. */
  function Sweep(b: Basis, omega: seq<real>, datahat: seq<Complex>, scales: seq<real>, k: nat, ops: FloatOps): Outcome
    requires ops.Sound() && |datahat| == |omega| && k <= |scales|
  {
    if k == 0 then Outcome(Success([]), [])
    else
      var o := Sweep(b, omega, datahat, scales, k - 1, ops);
      if o.rows.Failure? then o
      else
        var row := Row(b, omega, datahat, scales[k - 1], ops);
        if row.Failure? then Outcome(Failure(row.error), o.emitted)
        else Outcome(Success(o.rows.value + [row.value]), o.emitted + [Progress(Percent(k - 1, |scales|))])
  }

  /** The rows for scales[0 .. k-1], when each of them succeeds. */
  function Rows(b: Basis, omega: seq<real>, datahat: seq<Complex>, scales: seq<real>, k: nat, ops: FloatOps): (m: seq<seq<Complex>>)
    requires ops.Sound() && |datahat| == |omega| && k <= |scales|
    requires forall s :: 0 <= s < k ==> Row(b, omega, datahat, scales[s], ops).Success?
    ensures |m| == k
  {
    seq(k, s requires 0 <= s < k => Row(b, omega, datahat, scales[s], ops).value)
  }

  /** When the first k rows all succeed, the sweep holds exactly those rows, in order, and one
      progress signal per row. */
  lemma {:induction false} SweepAllSucceed(b: Basis, omega: seq<real>, datahat: seq<Complex>, scales: seq<real>, k: nat, ops: FloatOps)
    requires ops.Sound() && |datahat| == |omega| && k <= |scales|
    requires forall s :: 0 <= s < k ==> Row(b, omega, datahat, scales[s], ops).Success?
    ensures Sweep(b, omega, datahat, scales, k, ops) ==
      Outcome(Success(Rows(b, omega, datahat, scales, k, ops)), ProgressTrace(k, |scales|))
  {
    if k > 0 {
      SweepAllSucceed(b, omega, datahat, scales, k - 1, ops);
      SweepStep(b, omega, datahat, scales, k - 1, ops);
      RowsSnoc(b, omega, datahat, scales, k, ops);
      ProgressSnoc(k, |scales|);
    }
  }

  lemma RowsSnoc(b: Basis, omega: seq<real>, datahat: seq<Complex>, scales: seq<real>, k: nat, ops: FloatOps)
    requires ops.Sound() && |datahat| == |omega| && 0 < k <= |scales|
    requires forall s :: 0 <= s < k ==> Row(b, omega, datahat, scales[s], ops).Success?
    ensures Rows(b, omega, datahat, scales, k - 1, ops) + [Row(b, omega, datahat, scales[k - 1], ops).value] ==
      Rows(b, omega, datahat, scales, k, ops)
  {
  }

  lemma ProgressSnoc(k: nat, nscale: nat)
    requires 0 < k <= nscale
    ensures ProgressTrace(k - 1, nscale) + [Progress(Percent(k - 1, nscale))] == ProgressTrace(k, nscale)
  {
  }

  /** When row f is the first that fails, the sweep stops there with its error, having emitted
      the progress signals of rows 0 .. f-1 only; later iterations change nothing. */
  lemma {:induction false} SweepFirstFailure(b: Basis, omega: seq<real>, datahat: seq<Complex>, scales: seq<real>, f: nat, k: nat, ops: FloatOps)
    requires ops.Sound() && |datahat| == |omega| && f < k <= |scales|
    requires forall s :: 0 <= s < f ==> Row(b, omega, datahat, scales[s], ops).Success?
    requires Row(b, omega, datahat, scales[f], ops).Failure?
    ensures Sweep(b, omega, datahat, scales, k, ops) ==
      Outcome(Failure(Row(b, omega, datahat, scales[f], ops).error), ProgressTrace(f, |scales|))
  {
    if k == f + 1 {
      SweepAllSucceed(b, omega, datahat, scales, f, ops);
    } else {
      SweepFirstFailure(b, omega, datahat, scales, f, k - 1, ops);
    }
  }

  /** One iteration of the loop after k successful rows: row k is appended with its progress
      signal, or the sweep stops with the row's error and no new signal. */
  lemma SweepStep(b: Basis, omega: seq<real>, datahat: seq<Complex>, scales: seq<real>, k: nat, ops: FloatOps)
    requires ops.Sound() && |datahat| == |omega| && k < |scales|
    requires Sweep(b, omega, datahat, scales, k, ops).rows.Success?
    ensures var o, row := Sweep(b, omega, datahat, scales, k, ops), Row(b, omega, datahat, scales[k], ops);
      Sweep(b, omega, datahat, scales, k + 1, ops) ==
        if row.Success? then Outcome(Success(o.rows.value + [row.value]), o.emitted + [Progress(Percent(k, |scales|))])
        else Outcome(Failure(row.error), o.emitted)
  {
  }

  /** Once a row has failed, further iterations leave the outcome as it is. */
  lemma {:induction false} SweepStuck(b: Basis, omega: seq<real>, datahat: seq<Complex>, scales: seq<real>, j: nat, k: nat, ops: FloatOps)
    requires ops.Sound() && |datahat| == |omega| && j <= k <= |scales|
    requires Sweep(b, omega, datahat, scales, j, ops).rows.Failure?
    ensures Sweep(b, omega, datahat, scales, k, ops) == Sweep(b, omega, datahat, scales, j, ops)
  {
    if k > j {
      SweepStuck(b, omega, datahat, scales, j, k - 1, ops);
    }
  }

  /** Every sweep is one of the two shapes above: all rows succeed, or row f is the first to
      fail and the sweep holds its error and the progress of rows 0 .. f-1. */
  lemma SweepCases(b: Basis, omega: seq<real>, datahat: seq<Complex>, scales: seq<real>, k: nat, ops: FloatOps)
    requires ops.Sound() && |datahat| == |omega| && k <= |scales|
    ensures var o := Sweep(b, omega, datahat, scales, k, ops);
      || (o.rows.Success? && o.emitted == ProgressTrace(k, |scales|) &&
          forall s :: 0 <= s < k ==> Row(b, omega, datahat, scales[s], ops).Success?)
      || (exists f :: 0 <= f < k && Row(b, omega, datahat, scales[f], ops).Failure? &&
            (forall s :: 0 <= s < f ==> Row(b, omega, datahat, scales[s], ops).Success?) &&
            o == Outcome(Failure(Row(b, omega, datahat, scales[f], ops).error), ProgressTrace(f, |scales|)))
  {
    if forall s :: 0 <= s < k ==> Row(b, omega, datahat, scales[s], ops).Success? {
      SweepAllSucceed(b, omega, datahat, scales, k, ops);
    } else {
      var f := FirstFailing(b, omega, datahat, scales, k, ops);
      SweepFirstFailure(b, omega, datahat, scales, f, k, ops);
    }
  }

  /** The index of the first row that fails, when one does. */
  function FirstFailing(b: Basis, omega: seq<real>, datahat: seq<Complex>, scales: seq<real>, k: nat, ops: FloatOps): (f: nat)
    requires ops.Sound() && |datahat| == |omega| && k <= |scales|
    requires exists s :: 0 <= s < k && Row(b, omega, datahat, scales[s], ops).Failure?
    ensures f < k && Row(b, omega, datahat, scales[f], ops).Failure?
    ensures forall s :: 0 <= s < f ==> Row(b, omega, datahat, scales[s], ops).Success?
  {
    if Row(b, omega, datahat, scales[k - 1], ops).Failure? &&
       forall s :: 0 <= s < k - 1 ==> Row(b, omega, datahat, scales[s], ops).Success?
    then k - 1
    else FirstFailing(b, omega, datahat, scales, k - 1, ops)
  }

  /** Cwt(data, ...) end to end: the scale set (line 99), then 2*pi/ndata on the frequency axis
      (line 101-102), the FFT of the data (line 103), the scale loop (line 108-117) and the
      finished signal (line 118). Any error stops the transform where it is raised. */
  function Transform(data: seq<Complex>, largestscale: real, notes: int, scaling: string, b: Basis, ops: FloatOps): Outcome
    requires ops.Sound()
  {
    var ndata := |data|;
    var scaleSet := ScaleSet(ndata, largestscale, notes, scaling, ops);
    if scaleSet.Failure? then Outcome(Failure(scaleSet.error), [])
    else if ndata == 0 then Outcome(Failure(ZeroDivision), [])
    else
      var o := Sweep(b, Omega(ndata, ops.pi), ops.fft(data), scaleSet.value, |scaleSet.value|, ops);
      if o.rows.Success? then Outcome(o.rows, o.emitted + [Finished]) else o
  }

  /** An unknown scaling mode raises in _setscales, before the matrix, the FFT or any signal. */
  lemma UnknownScalingStopsEarly(data: seq<Complex>, largestscale: real, notes: int, scaling: string, b: Basis, ops: FloatOps)
    requires ops.Sound() && scaling != "log" && scaling != "linear"
    ensures Transform(data, largestscale, notes, scaling, b, ops) == Outcome(Failure(UnknownScaling), [])
  {
    UnknownScalingFails(|data|, largestscale, notes, scaling, ops);
  }

  /** A successful transform has one row of ndata coefficients per scale; row s is the row for
      scales[s]; and the signals are the nscale progress values in order, then finished once. */
  lemma TransformRows(data: seq<Complex>, largestscale: real, notes: int, scaling: string, b: Basis, ops: FloatOps)
    requires ops.Sound() && Transform(data, largestscale, notes, scaling, b, ops).rows.Success?
    ensures var scales := ScaleSet(|data|, largestscale, notes, scaling, ops).value;
      var o := Transform(data, largestscale, notes, scaling, b, ops);
      && |data| > 0
      && |o.rows.value| == |scales|
      && (forall s :: 0 <= s < |scales| ==>
            Row(b, Omega(|data|, ops.pi), ops.fft(data), scales[s], ops) == Success(o.rows.value[s]) &&
            |o.rows.value[s]| == |data|)
      && o.emitted == ProgressTrace(|scales|, |scales|) + [Finished]
  {
    var scales := ScaleSet(|data|, largestscale, notes, scaling, ops).value;
    var omega, datahat := Omega(|data|, ops.pi), ops.fft(data);
    SweepCases(b, omega, datahat, scales, |scales|, ops);
    SweepAllSucceed(b, omega, datahat, scales, |scales|, ops);
  }

  /** The signal trace of every outcome, successful or not: progress values s*100//nscale for
      consecutive rows s = 0, 1, ..., then finished exactly once, as the last signal, and only
      when the transform succeeds. */
  lemma TransformSignals(data: seq<Complex>, largestscale: real, notes: int, scaling: string, b: Basis, ops: FloatOps)
    requires ops.Sound()
    ensures var o := Transform(data, largestscale, notes, scaling, b, ops);
      var scaleSet := ScaleSet(|data|, largestscale, notes, scaling, ops);
      && (o.rows.Success? <==> |o.emitted| > 0 && o.emitted[|o.emitted| - 1] == Finished)
      && (forall i :: 0 <= i < |o.emitted| && o.emitted[i] == Finished ==> i == |o.emitted| - 1)
      && (forall i :: 0 <= i < |o.emitted| && o.emitted[i] != Finished ==>
            scaleSet.Success? && i < |scaleSet.value| && o.emitted[i] == Progress(Percent(i, |scaleSet.value|)))
  {
    var scaleSet := ScaleSet(|data|, largestscale, notes, scaling, ops);
    if scaleSet.Success? && |data| > 0 {
      SweepCases(b, Omega(|data|, ops.pi), ops.fft(data), scaleSet.value, |scaleSet.value|, ops);
    }
  }

  /** Consecutive progress values start at 0, never decrease and stay below 100. */
  lemma ProgressOrdered(k: nat, nscale: nat, i: nat, j: nat)
    requires k <= nscale && i <= j < k
    ensures ProgressTrace(k, nscale)[0] == Progress(0)
    ensures 0 <= ProgressTrace(k, nscale)[i].percent <= ProgressTrace(k, nscale)[j].percent < 100
  {
    PercentBounds(i, j, nscale);
  }

  /** Every family (Paul of order >= 1, DOG of order >= 0) completes the transform whenever
      log-mode scales exist: log scales are positive, so no sqrt(2*pi*scale) is taken of a
      negative number, and Haar's scaled axis is non-zero past index 0. */
  lemma LogTransformSucceeds(data: seq<Complex>, largestscale: real, notes: int, b: Basis, ops: FloatOps)
    requires ops.Sound() && ScaleSet(|data|, largestscale, notes, "log", ops).Success?
    requires b.family == Morlet || b.family == MorletReal || (b.family == Paul && b.order >= 1) ||
             (b.family == DOG && b.order >= 0) || b.family == Haar
    ensures Transform(data, largestscale, notes, "log", b, ops).rows.Success?
  {
    var scales := ScaleSet(|data|, largestscale, notes, "log", ops).value;
    LogShape(|data|, largestscale, notes, ops);
    var omega, datahat := Omega(|data|, ops.pi), ops.fft(data);
    forall s | 0 <= s < |scales|
      ensures Row(b, omega, datahat, scales[s], ops).Success?
    {
      LogScalesPositive(|data|, largestscale, notes, ops, s);
      if b.family == Haar {
        var c := scales[s];
        forall i | 1 <= i < |data|
          ensures Scaled(omega, c)[i] != 0.0
        {
          ScaledOmegaNonZero(|data|, ops.pi, c, i);
        }
      }
    }
    SweepAllSucceed(b, omega, datahat, scales, |scales|, ops);
  }

  /** An instance of a Cwt subclass after __init__. */
  class Cwt {
    const family: Family
    const order: int
    const omega0: real
    /** largestscale, kept as self.scale. */
    const scale: real
    var nscale: int
    var scales: array<real>
    var cwt: array2<Complex>
    var fftdata: seq<Complex>
    var currentscale: real

    /** nscale is the number of scales and of coefficient rows. */
    ghost predicate Valid()
      reads this
    {
      0 <= nscale && scales.Length == nscale && cwt.Length0 == nscale
    }

    constructor(family: Family, order: int, omega0: real, largestscale: real)
      ensures this.family == family && this.order == order && this.omega0 == omega0
      ensures scale == largestscale
      ensures fresh(scales) && fresh(cwt) && Valid() && nscale == 0
    {
      this.family := family;
      this.order := order;
      this.omega0 := omega0;
      scale := largestscale;
      nscale := 0;
      scales := new real[0];
      cwt := new Complex[0, 0];
      fftdata := [];
      currentscale := 0.0;
    }

    /** _setscales: fills scales and nscale, or reports the error it raises. In log mode the
        scales are written one by one from self.scale, which __init__ has set to largestscale. */
    method SetScales(ndata: nat, largestscale: real, notes: int, scaling: string, ops: FloatOps) returns (err: Option<Error>)
      requires ops.Sound() && largestscale == scale
      modifies this
      ensures var scaleSet := ScaleSet(ndata, largestscale, notes, scaling, ops);
        && (err.None? <==> scaleSet.Success?)
        && (err.Some? ==> err.value == scaleSet.error)
        && (err.None? ==> fresh(scales) && scales[..] == scaleSet.value && nscale == |scaleSet.value|)
      ensures cwt == old(cwt) && fftdata == old(fftdata) && currentscale == old(currentscale)
    {
      if scaling == "log" {
        var notes := if notes <= 0 then 1 else notes;
        if largestscale == 0.0 {
          return Some(ZeroDivision);
        }
        var x := ndata as real / largestscale / 2.0;
        if x <= 0.0 {
          return Some(LogDomain);
        }
        var noctave := ops.log2(x);
        nscale := notes * noctave;
        if nscale < 0 {
          return Some(NegativeDimension);
        }
        scales := LogScaleArray(ndata, scale, notes, nscale, ops);
      } else if scaling == "linear" {
        if largestscale == 0.0 {
          return Some(ZeroDivision);
        }
        var nmax := ndata as real / largestscale / 2.0;
        var step := (nmax - 2.0) / Pow2(notes);
        if step == 0.0 {
          return Some(ZeroDivision);
        }
        var a := Arange(2.0, nmax, step);
        scales := new real[|a|](i requires 0 <= i < |a| => a[i]);
        assert scales[..] == a;
        nscale := |a|;
      } else {
        return Some(UnknownScaling);
      }
      return None;
    }

    /** The log-mode loop of _setscales: a zero array of nscale entries, entry j set to
        ndata / (scale * 2^((nscale - 1 - j) / notes)). */
    static method LogScaleArray(ndata: nat, scale: real, notes: int, nscale: nat, ops: FloatOps) returns (a: array<real>)
      requires ops.Sound() && scale != 0.0 && notes >= 1
      ensures fresh(a) && a[..] == LogScales(ndata, scale, notes, nscale, ops)
    {
      a := new real[nscale](_ => 0.0);
      for j := 0 to nscale
        invariant forall k :: 0 <= k < j ==> a[k] == LogScale(ndata, scale, notes, nscale, k, ops)
      {
        a[j] := LogScale(ndata, scale, notes, nscale, j, ops);
      }
      assert forall k :: 0 <= k < nscale ==> a[..][k] == LogScales(ndata, scale, notes, nscale, ops)[k];
    }

    /** self.wf(s_omega), dispatched on the subclass. */
    method Wf(s_omega: seq<real>, ops: FloatOps) returns (r: Result<seq<Complex>>)
      requires ops.Sound()
      ensures r == Response(family, order, omega0, s_omega, currentscale, ops)
    {
      match family
      case Morlet =>
        var xhat := MorletWf(s_omega, omega0, ops.exp);
        r := Success(xhat);
      case MorletReal =>
        r := Success(MorletRealResponse(s_omega, omega0, ops.exp));
      case Paul =>
        r := PaulWf(s_omega, order, ops);
      case DOG =>
        r := DogResponse(s_omega, order, ops);
      case Haar =>
        r := HaarWf(s_omega, currentscale, ops.sin);
    }

    /** The scale loop of __init__ (lines 108-117): for each scale in ascending order, the row
        ifft(wf(omega * scale) * sqrt(2 * pi * scale) * datahat) is written into the matrix and
        the progress value is emitted. It ends as Sweep does: with every row, or at the first
        row that fails. */
    method RunScales(omega: seq<real>, datahat: seq<Complex>, listener: Listener, ops: FloatOps) returns (err: Option<Error>)
      requires ops.Sound() && Valid() && |omega| == |datahat| == cwt.Length1
      modifies this, cwt, listener
      ensures var o := Sweep(Basis(family, order, omega0), omega, datahat, old(scales[..]), old(nscale), ops);
        && listener.emitted == old(listener.emitted) + o.emitted
        && (err.None? <==> o.rows.Success?)
        && (err.Some? ==> err.value == o.rows.error)
        && (err.None? ==> Coefficients() == o.rows.value)
      ensures cwt == old(cwt) && scales == old(scales) && nscale == old(nscale) && fftdata == old(fftdata)
      ensures Valid() && scales[..] == old(scales[..])
    {
      var b := Basis(family, order, omega0);
      ghost var sc := scales[..];
      ghost var rows: seq<seq<Complex>> := [];
      var s := 0;
      while s < nscale
        invariant 0 <= s <= nscale
        invariant cwt == old(cwt) && scales == old(scales) && nscale == old(nscale) && fftdata == old(fftdata)
        invariant scales[..] == sc
        invariant Sweep(b, omega, datahat, sc, s, ops).rows == Success(rows)
        invariant listener.emitted == old(listener.emitted) + Sweep(b, omega, datahat, sc, s, ops).emitted
        invariant |rows| == s && forall i :: 0 <= i < s ==> |rows[i]| == cwt.Length1
        invariant forall i, t :: 0 <= i < s && 0 <= t < cwt.Length1 ==> cwt[i, t] == rows[i][t]
      {
        var row := Advance(s, omega, datahat, listener, ops);
        SweepStep(b, omega, datahat, sc, s, ops);
        if row.Failure? {
          SweepStuck(b, omega, datahat, sc, s + 1, nscale, ops);
          return Some(row.error);
        }
        rows := rows + [row.value];
        s := s + 1;
      }
      CoefficientsAre(rows);
      return None;
    }

    /** One pass of the loop body, lines 109-117: row s is computed; when it succeeds it is
        stored in the matrix and its progress signal is emitted. */
    method Advance(s: nat, omega: seq<real>, datahat: seq<Complex>, listener: Listener, ops: FloatOps)
      returns (row: Result<seq<Complex>>)
      requires ops.Sound() && Valid() && |omega| == |datahat| == cwt.Length1 && s < nscale
      modifies this, cwt, listener
      ensures row == Row(Basis(family, order, omega0), omega, datahat, old(scales[s]), ops)
      ensures cwt == old(cwt) && scales == old(scales) && nscale == old(nscale) && fftdata == old(fftdata)
      ensures scales[..] == old(scales[..])
      ensures row.Failure? ==> listener.emitted == old(listener.emitted)
      ensures row.Success? ==> listener.emitted == old(listener.emitted) + [Progress(Percent(s, nscale))]
      ensures row.Success? ==> forall i, t :: 0 <= i < cwt.Length0 && 0 <= t < cwt.Length1 ==>
        cwt[i, t] == if i == s then row.value[t] else old(cwt[i, t])
    {
      row := ComputeRow(s, omega, datahat, ops);
      if row.Success? {
        SetRow(s, row.value);
        listener.Emit(Progress(Percent(s, nscale)));
      }
    }

    /** The matrix read back row by row is the sequence of rows written into it. */
    lemma CoefficientsAre(rows: seq<seq<Complex>>)
      requires |rows| == cwt.Length0 && forall i :: 0 <= i < |rows| ==> |rows[i]| == cwt.Length1
      requires forall i, t :: 0 <= i < |rows| && 0 <= t < cwt.Length1 ==> cwt[i, t] == rows[i][t]
      ensures Coefficients() == rows
    {
      forall i | 0 <= i < |rows|
        ensures Coefficients()[i] == rows[i]
      {
        assert forall t :: 0 <= t < cwt.Length1 ==> Coefficients()[i][t] == rows[i][t];
      }
    }

    /** Lines 109-115 for scaleindex s: currentscale becomes scales[s] and the row is computed.
        It fails when wf fails or when sqrt(2 * pi * currentscale) is not a number. */
    method ComputeRow(s: nat, omega: seq<real>, datahat: seq<Complex>, ops: FloatOps) returns (row: Result<seq<Complex>>)
      requires ops.Sound() && s < scales.Length && |omega| == |datahat|
      modifies this
      ensures row == Row(Basis(family, order, omega0), omega, datahat, old(scales[s]), ops)
      ensures currentscale == old(scales[s])
      ensures cwt == old(cwt) && scales == old(scales) && nscale == old(nscale) && fftdata == old(fftdata)
    {
      currentscale := scales[s];
      var s_omega := Scaled(omega, currentscale);
      var psihat := Wf(s_omega, ops);
      if psihat.Failure? {
        return Failure(psihat.error);
      }
      if currentscale < 0.0 {
        return Failure(NonFinite);
      }
      var w := Convolve(psihat.value, datahat, currentscale, ops);
      return Success(w);
    }

    /** self.cwt[s, 0:ndata] = w: row s is replaced, every other row is kept. */
    method SetRow(s: nat, w: seq<Complex>)
      requires s < cwt.Length0 && |w| == cwt.Length1
      modifies cwt
      ensures forall i, t :: 0 <= i < cwt.Length0 && 0 <= t < cwt.Length1 ==>
        cwt[i, t] == if i == s then w[t] else old(cwt[i, t])
    {
      forall t | 0 <= t < cwt.Length1 {
        cwt[s, t] := w[t];
      }
    }

    /** getcoefficients (and getdata, which is the same): the matrix, row by row. */
    function Coefficients(): (m: seq<seq<Complex>>)
      reads this, cwt
      ensures |m| == cwt.Length0
      ensures forall s :: 0 <= s < |m| ==> |m[s]| == cwt.Length1
    {
      seq(cwt.Length0, s requires 0 <= s < cwt.Length0 reads this, cwt =>
        seq(cwt.Length1, t requires 0 <= s < cwt.Length0 && 0 <= t < cwt.Length1 reads this, cwt => cwt[s, t]))
    }

    /** getpower: the real part of cwt * conj(cwt), entry by entry. It has the shape of the
        matrix, and each entry is |c|^2 = re^2 + im^2, so it is never negative. */
    function GetPower(): (p: seq<seq<real>>)
      reads this, cwt
      ensures |p| == cwt.Length0
      ensures forall s :: 0 <= s < |p| ==> |p[s]| == cwt.Length1
      ensures forall s, t :: 0 <= s < cwt.Length0 && 0 <= t < cwt.Length1 ==>
        p[s][t] == AbsSquared(cwt[s, t]) && p[s][t] >= 0.0
    {
      seq(cwt.Length0, s requires 0 <= s < cwt.Length0 reads this, cwt =>
        seq(cwt.Length1, t requires 0 <= s < cwt.Length0 && 0 <= t < cwt.Length1 reads this, cwt =>
          ConjugateProduct(cwt[s, t]);
          Mul(cwt[s, t], Conj(cwt[s, t])).re))
    }

    /** getscales. */
    function GetScales(): (r: seq<real>)
      reads this, scales
      requires Valid()
      ensures |r| == nscale
    {
      scales[..]
    }

    /** getnscale: the number of scales, which is also the number of coefficient rows. */
    function GetNscale(): (r: int)
      reads this
      requires Valid()
      ensures r == scales.Length && r == cwt.Length0
    {
      nscale
    }

    /** Cwt.__init__ (with the subclass chosen by family): the transform of data, with the
        signals delivered to listener. On success the object holds the scale set, the FFT of the
        data and the nscale x ndata coefficient matrix of Transform; on failure the signals
        emitted before the error have still been delivered. */
    static method Create(data: seq<Complex>, listener: Listener, largestscale: real, notes: int, order: int,
                         scaling: string, omega0: real, family: Family, ops: FloatOps) returns (r: Result<Cwt>)
      requires ops.Sound()
      modifies listener
      ensures var o := Transform(data, largestscale, notes, scaling, Basis(family, order, omega0), ops);
        && listener.emitted == old(listener.emitted) + o.emitted
        && (r.Success? <==> o.rows.Success?)
        && (r.Failure? ==> r.error == o.rows.error)
        && (r.Success? ==>
              fresh(r.value) && fresh(r.value.scales) && fresh(r.value.cwt) && r.value.Valid()
              && r.value.family == family && r.value.order == order && r.value.omega0 == omega0
              && r.value.scale == largestscale
              && r.value.cwt.Length1 == |data|
              && r.value.scales[..] == ScaleSet(|data|, largestscale, notes, scaling, ops).value
              && r.value.fftdata == ops.fft(data)
              && r.value.Coefficients() == o.rows.value)
    {
      var ndata := |data|;
      var c := new Cwt(family, order, omega0, largestscale);
      var err := c.SetScales(ndata, largestscale, notes, scaling, ops);
      if err.Some? {
        return Failure(err.value);
      }
      c.cwt := new Complex[c.nscale, ndata]((_, _) => Zero);
      if ndata == 0 {
        return Failure(ZeroDivision);
      }
      var omega := Omega(ndata, ops.pi);
      var datahat := ops.fft(data);
      c.fftdata := datahat;
      err := c.RunScales(omega, datahat, listener, ops);
      if err.Some? {
        return Failure(err.value);
      }
      listener.Emit(Finished);
      r := Success(c);
    }
  }
}
