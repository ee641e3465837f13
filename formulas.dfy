/** The closed-form dispersion models of src/refractive_index_database/spectral_data.py:
    which coefficients each formula reads, the `rhs +=` accumulation over its terms, and the
    shape of what it returns. Floating-point operations are foreign and stay uninterpreted. */
module Formulas {
  import opened Outcomes
  import opened Numbers

  datatype ModelKind =
    | Sellmeier | Sellmeier2 | Polynomial | RefractiveIndexInfo | Cauchy | Gases
    | Herzberger | Retro | Exotic | Drude | DrudeLorentz

  /** The numpy operations the formulas use, on doubles: `np.sqrt` of a real (NaN below zero),
      `np.power` with a real exponent, IEEE division (infinite or NaN at zero) and complex
      division. */
  datatype Arith = Arith(
    sqrt: real -> real,
    power: (real, real) -> real,
    div: (real, real) -> real,
    cdiv: (Complex, Complex) -> Complex)

  /** `model_parameters[i]` for a non-negative index. */
  function Coef(p: seq<real>, i: nat): (r: Result<real>)
    ensures r.Ok? <==> i < |p|
    ensures r.Ok? ==> r.value == p[i]
    ensures r.Err? ==> r.error == IndexError
  {
    if i < |p| then Ok(p[i]) else Err(IndexError)
  }

  /** The `n` consecutive coefficients from index `start`, read one by one. */
  function Coefs(p: seq<real>, start: nat, n: nat): (r: Result<seq<real>>)
    ensures r.Ok? <==> start + n <= |p|
    ensures r.Ok? ==> r.value == p[start..start + n]
    ensures r.Err? ==> r.error == IndexError
  {
    if start + n <= |p| then Ok(p[start..start + n]) else Err(IndexError)
  }

  /** Python's `len(p[start:stop:step])` for a sequence of length `n` and non-negative
      `start` and `stop`. */
  function SliceLength(n: nat, start: nat, stop: nat, step: nat): nat
    requires step > 0
  {
    var end := if stop < n then stop else n;
    if end <= start then 0 else (end - start + step - 1) / step
  }

  /** A loop of additive terms: term `i` reads `Width` consecutive coefficients from
      `TermStart`. */
  datatype Family = PairTerms(kind: ModelKind) | PoleTerms | PowerTerms

  function Width(f: Family): nat {
    if f.PoleTerms? then 4 else 2
  }

  /** Index of the first coefficient read by term `i`. */
  function TermStart(f: Family, i: nat): nat {
    match f
    case PairTerms(_) => 2 * i + 1
    case PoleTerms => 4 * i + 1
    case PowerTerms => 2 * i + 9
  }

  /** The value one term adds to `rhs` at the coordinate `x`. */
  function Term(a: Arith, f: Family, cs: seq<real>, x: real): real
    requires |cs| == Width(f)
  {
    match f
    case PairTerms(Sellmeier) =>
      var w := a.power(x, 2.0);
      a.div(cs[0] * w, w - cs[1] * cs[1])
    case PairTerms(Sellmeier2) =>
      var w := a.power(x, 2.0);
      a.div(cs[0] * w, w - cs[1])
    case PairTerms(Gases) =>
      a.div(cs[0], cs[1] - a.power(x, -2.0))
    case PairTerms(_) =>
      cs[0] * a.power(x, cs[1])
    case PoleTerms =>
      a.div(cs[0] * a.power(x, cs[1]), a.power(x, 2.0) - a.power(cs[2], cs[3]))
    case PowerTerms =>
      cs[0] * a.power(x, cs[1])
  }

  /** The terms of a family as a function of the coefficients they read and the coordinate. */
  function TermOf(a: Arith, f: Family): (seq<real>, real) -> real {
    (cs: seq<real>, x: real) => if |cs| == Width(f) then Term(a, f, cs, x) else 0.0
  }

  /** One `rhs += term` with numpy broadcasting. */
  function AddTerm(term: (seq<real>, real) -> real, cs: seq<real>, rhs: Payload<real>,
                   lams: Payload<real>): Result<Payload<real>>
  {
    Zip(rhs, lams, (r: real, x: real) => r + term(cs, x))
  }

  /** `rhs` after `k` iterations of a term loop that starts from `init`. */
  function Accumulate(f: Family, term: (seq<real>, real) -> real, p: seq<real>, init: Payload<real>,
                      lams: Payload<real>, k: nat): Result<Payload<real>>
  {
    if k == 0 then Ok(init)
    else
      var rhs :- Accumulate(f, term, p, init, lams, k - 1);
      var cs :- Coefs(p, TermStart(f, k - 1), Width(f));
      AddTerm(term, cs, rhs, lams)
  }

  /** The sum of the first `k` terms at one coordinate. */
  function Series(f: Family, term: (seq<real>, real) -> real, p: seq<real>, x: real, k: nat): real
    requires k == 0 || TermStart(f, k - 1) + Width(f) <= |p|
  {
    if k == 0 then 0.0
    else Series(f, term, p, x, k - 1) + term(p[TermStart(f, k - 1)..TermStart(f, k - 1) + Width(f)], x)
  }

  /** The term loop `for iterc in range(n): ... rhs += term`. */
  method AccumulateTerms(f: Family, term: (seq<real>, real) -> real, p: seq<real>, init: Payload<real>,
                         lams: Payload<real>, n: nat) returns (r: Result<Payload<real>>)
    ensures r == Accumulate(f, term, p, init, lams, n)
  {
    var rhs := init;
    for iterc := 0 to n
      invariant Accumulate(f, term, p, init, lams, iterc) == Ok(rhs)
    {
      var cs := Coefs(p, TermStart(f, iterc), Width(f));
      if cs.Err? {
        assert Accumulate(f, term, p, init, lams, iterc + 1) == Err(IndexError);
        FailurePersists(f, term, p, init, lams, iterc + 1, n);
        return Err(IndexError);
      }
      var sum := AddTerm(term, cs.value, rhs, lams);
      assert Accumulate(f, term, p, init, lams, iterc + 1) == sum;
      if sum.Err? {
        FailurePersists(f, term, p, init, lams, iterc + 1, n);
        return sum;
      }
      rhs := sum.value;
    }
    r := Ok(rhs);
  }

  /** Once an iteration raises, so does every longer loop, with the same error. */
  lemma {:induction false} FailurePersists(f: Family, term: (seq<real>, real) -> real, p: seq<real>, init: Payload<real>,
                                           lams: Payload<real>, k: nat, m: nat)
    requires k <= m
    requires Accumulate(f, term, p, init, lams, k).Err?
    ensures Accumulate(f, term, p, init, lams, m) == Accumulate(f, term, p, init, lams, k)
    decreases m - k
  {
    if k < m {
      FailurePersists(f, term, p, init, lams, k, m - 1);
    }
  }

  /** Index discipline of a term loop: it succeeds exactly when the last term's coefficients
      exist, and otherwise raises IndexError. */
  lemma {:induction false} AccumulateInBounds(f: Family, term: (seq<real>, real) -> real, p: seq<real>, init: Payload<real>,
                                              lams: Payload<real>, k: nat)
    requires Broadcastable(init, lams)
    ensures var r := Accumulate(f, term, p, init, lams, k);
      r.Ok? <==> (k == 0 || TermStart(f, k - 1) + Width(f) <= |p|)
    ensures var r := Accumulate(f, term, p, init, lams, k);
      r.Err? ==> r.error == IndexError
    ensures var r := Accumulate(f, term, p, init, lams, k);
      r.Ok? ==> Broadcastable(r.value, lams)
  {
    if k > 0 {
      AccumulateInBounds(f, term, p, init, lams, k - 1);
      var prev := Accumulate(f, term, p, init, lams, k - 1);
      var cs := Coefs(p, TermStart(f, k - 1), Width(f));
      if prev.Ok? && cs.Ok? {
        ZipBroadcastsAgain(prev.value, lams, (r: real, x: real) => r + term(cs.value, x));
      }
      if k - 1 > 0 {
        assert TermStart(f, k - 2) + Width(f) <= TermStart(f, k - 1) + Width(f);
      }
    }
  }

  /** Shape of a term loop's result: the start value's shape when no term runs, otherwise the
      broadcast of the start value against the coordinates. */
  lemma {:induction false} AccumulateShape(f: Family, term: (seq<real>, real) -> real, p: seq<real>, init: Payload<real>,
                                           lams: Payload<real>, k: nat)
    requires Broadcastable(init, lams)
    ensures var r := Accumulate(f, term, p, init, lams, k);
      r.Ok? && k == 0 ==> r.value == init
    ensures var r := Accumulate(f, term, p, init, lams, k);
      r.Ok? && k > 0 ==> Size(r.value) == BroadcastSize(init, lams)
    ensures var r := Accumulate(f, term, p, init, lams, k);
      r.Ok? && k > 0 ==> (r.value.Scalar? <==> init.Scalar? && lams.Scalar?)
  {
    if k > 1 {
      AccumulateShape(f, term, p, init, lams, k - 1);
    }
  }

  /** One iteration of a successful term loop. */
  lemma AccumulateStep(f: Family, term: (seq<real>, real) -> real, p: seq<real>, init: Payload<real>,
                       lams: Payload<real>, k: nat)
    requires k > 0 && Accumulate(f, term, p, init, lams, k).Ok?
    ensures Accumulate(f, term, p, init, lams, k - 1).Ok?
    ensures TermStart(f, k - 1) + Width(f) <= |p|
    ensures Accumulate(f, term, p, init, lams, k) ==
      AddTerm(term, p[TermStart(f, k - 1)..TermStart(f, k - 1) + Width(f)],
              Accumulate(f, term, p, init, lams, k - 1).value, lams)
  {
  }

  /** Each element of a term loop's result is the start value plus the series of terms at the
      matching coordinate. */
  lemma {:induction false} AccumulateValueAt(f: Family, term: (seq<real>, real) -> real, p: seq<real>, init: Payload<real>,
                                             lams: Payload<real>, k: nat, i: nat)
    requires Broadcastable(init, lams)
    requires k > 0 && Accumulate(f, term, p, init, lams, k).Ok?
    requires i < Size(Accumulate(f, term, p, init, lams, k).value)
    ensures TermStart(f, k - 1) + Width(f) <= |p|
    ensures Pick(init, i) < Size(init) && Pick(lams, i) < Size(lams)
    ensures At(Accumulate(f, term, p, init, lams, k).value, i) ==
      At(init, Pick(init, i)) + Series(f, term, p, At(lams, Pick(lams, i)), k)
  {
    AccumulateStep(f, term, p, init, lams, k);
    var rhs := Accumulate(f, term, p, init, lams, k - 1).value;
    AccumulateInBounds(f, term, p, init, lams, k - 1);
    AccumulateShape(f, term, p, init, lams, k - 1);
    var cs := p[TermStart(f, k - 1)..TermStart(f, k - 1) + Width(f)];
    var g := (r: real, x: real) => r + term(cs, x);
    ZipAt(rhs, lams, g, i);
    var j := Pick(rhs, i);
    var x := At(lams, Pick(lams, i));
    if k > 1 {
      assert Size(rhs) == 1 ==> Size(lams) == 1 && Size(init) == 1;
      assert Pick(init, j) == Pick(init, i) && Pick(lams, j) == Pick(lams, i);
      AccumulateValueAt(f, term, p, init, lams, k - 1, j);
    }
  }

  predicate IsPairKind(kind: ModelKind) {
    kind.Sellmeier? || kind.Sellmeier2? || kind.Polynomial? || kind.Cauchy? || kind.Gases?
  }

  predicate IsClosedKind(kind: ModelKind) {
    !IsPairKind(kind) && !kind.RefractiveIndexInfo?
  }

  /** How many leading coefficients a closed-form model reads. */
  function Needed(kind: ModelKind): nat {
    match kind
    case Herzberger => 6
    case Exotic => 6
    case Retro => 4
    case Drude => 2
    case DrudeLorentz => 3
    case _ => 1
  }

  /** `len(model_parameters[1::2])`, the number of terms of a two-coefficient model. */
  function PairCount(n: nat): nat {
    SliceLength(n, 1, n, 2)
  }

  /** `len(model_parameters[1:8:4])`, the number of pole terms of RefractiveIndexInfo. */
  function PoleCount(n: nat): nat {
    SliceLength(n, 1, 8, 4)
  }

  /** `len(model_parameters[9::2])`, the number of power terms of RefractiveIndexInfo. */
  function PowerCount(n: nat): nat {
    SliceLength(n, 9, n, 2)
  }

  /** `model_parameters[0] * ones` */
  function Scaled(ones: Payload<real>, p0: real): (r: Payload<real>)
    ensures SameShape(r, ones)
  {
    Lift(ones, (o: real) => p0 * o)
  }

  /** What a two-coefficient model makes of the accumulated `rhs`. */
  function Finish(a: Arith, kind: ModelKind, rhs: real): real {
    match kind
    case Sellmeier => a.sqrt(rhs + 1.0)
    case Sellmeier2 => a.sqrt(rhs + 1.0)
    case Polynomial => a.sqrt(rhs)
    case Gases => rhs + 1.0
    case _ => rhs
  }

  function FinishOf(a: Arith, kind: ModelKind): real -> Complex {
    (v: real) => FromReal(Finish(a, kind, v))
  }

  function SqrtOf(a: Arith): real -> Complex {
    (v: real) => FromReal(a.sqrt(v))
  }

  /** The value of a closed-form model at one coordinate `x`, with `o` the matching element
      of `ones`. */
  function Closed(a: Arith, kind: ModelKind, cs: seq<real>, o: real, x: real): Complex
    requires |cs| >= Needed(kind)
  {
    match kind
    case Herzberger =>
      var w := a.power(x, 2.0);
      FromReal(cs[0] * o + cs[1] * a.power(w - 0.028, -1.0) + cs[2] * a.power(w - 0.028, -2.0)
               + cs[3] * w + cs[4] * a.power(x, 4.0) + cs[5] * a.power(x, 6.0))
    case Retro =>
      var w := a.power(x, 2.0);
      var rhs := cs[0] * o + a.div(cs[1] * w, w - cs[2]) + cs[3] * w;
      var tmpP := a.div(-2.0 * rhs, 1.0 - rhs);
      var tmpQ := a.div(-1.0, 1.0 - rhs);
      FromReal(-0.5 * tmpP + a.sqrt(a.power(0.5 * tmpP, 2.0) - tmpQ))
    case Exotic =>
      var w := a.power(x, 2.0);
      FromReal(a.sqrt(cs[0] * o + a.div(cs[1] * w, w - cs[2])
                      + a.div(cs[3] * (x - cs[4]), a.power(x - cs[4], 2.0) + cs[5])))
    case Drude =>
      var q := a.cdiv(FromReal(cs[0] * cs[0]), Complex(a.power(x, 2.0), cs[1] * x));
      Complex(o - q.re, -q.im)
    case DrudeLorentz =>
      var q := a.cdiv(FromReal(cs[0] * cs[0]),
                      Complex(a.power(x, 2.0) - cs[1] * cs[1], cs[2] * x));
      Complex(o - q.re, -q.im)
    case _ => FromReal(cs[0] * o)
  }

  function ClosedOf(a: Arith, kind: ModelKind, cs: seq<real>): (real, real) -> Complex {
    (o: real, x: real) => if |cs| >= Needed(kind) then Closed(a, kind, cs, o, x) else FromReal(0.0)
  }

  /** The `evaluate` body of a model after `preprocess`: `ones` holds 1.0 in the shape
      preprocessing chose and `lams` the coordinates in the model's unit. */
  function FormulaValue(a: Arith, kind: ModelKind, p: seq<real>, ones: Payload<real>,
                        lams: Payload<real>): Result<Payload<Complex>>
  {
    if IsPairKind(kind) then
      var p0 :- Coef(p, 0);
      var f := PairTerms(kind);
      var rhs :- Accumulate(f, TermOf(a, f), p, Scaled(ones, p0), lams, PairCount(|p|));
      Ok(Lift(rhs, FinishOf(a, kind)))
    else if kind.RefractiveIndexInfo? then
      var p0 :- Coef(p, 0);
      var poles :- Accumulate(PoleTerms, TermOf(a, PoleTerms), p, Scaled(ones, p0), lams,
                              PoleCount(|p|));
      var rhs :- Accumulate(PowerTerms, TermOf(a, PowerTerms), p, poles, lams, PowerCount(|p|));
      Ok(Lift(rhs, SqrtOf(a)))
    else
      var cs :- Coefs(p, 0, Needed(kind));
      Zip(ones, lams, ClosedOf(a, kind, cs))
  }

  /** The `evaluate` methods of the eleven models, with their `rhs +=` loops. */
  method EvaluateFormula(a: Arith, kind: ModelKind, p: seq<real>, ones: Payload<real>,
                         lams: Payload<real>) returns (r: Result<Payload<Complex>>)
    ensures r == FormulaValue(a, kind, p, ones, lams)
  {
    if IsPairKind(kind) {
      var p0 :- Coef(p, 0);
      var f := PairTerms(kind);
      var rhs :- AccumulateTerms(f, TermOf(a, f), p, Scaled(ones, p0), lams, PairCount(|p|));
      r := Ok(Lift(rhs, FinishOf(a, kind)));
    } else if kind.RefractiveIndexInfo? {
      var p0 :- Coef(p, 0);
      var poles :- AccumulateTerms(PoleTerms, TermOf(a, PoleTerms), p, Scaled(ones, p0), lams,
                                   PoleCount(|p|));
      var rhs :- AccumulateTerms(PowerTerms, TermOf(a, PowerTerms), p, poles, lams,
                                 PowerCount(|p|));
      r := Ok(Lift(rhs, SqrtOf(a)));
    } else {
      var cs :- Coefs(p, 0, Needed(kind));
      r := Zip(ones, lams, ClosedOf(a, kind, cs));
    }
  }

  /** The parameter-vector lengths a model's formula can index without IndexError. */
  predicate LengthOk(kind: ModelKind, n: nat) {
    if IsPairKind(kind) then n % 2 == 1
    else if kind.RefractiveIndexInfo? then n == 1 || n == 5 || (n >= 9 && n % 2 == 1)
    else n >= Needed(kind)
  }

  lemma PairCountIs(n: nat)
    ensures PairCount(n) == n / 2
  {
  }

  lemma PairCountPositive(n: nat)
    requires n >= 3
    ensures PairCount(n) > 0
  {
    PairCountIs(n);
  }

  lemma RefractiveIndexInfoCounts(n: nat)
    ensures PoleCount(n) == (if n >= 6 then 2 else if n >= 2 then 1 else 0)
    ensures PowerCount(n) == (if n >= 9 then (n - 8) / 2 else 0)
  {
  }

  /** Index discipline of every formula: evaluation raises IndexError exactly for the
      parameter-vector lengths whose terms read past the end. */
  lemma FormulaInBounds(a: Arith, kind: ModelKind, p: seq<real>, ones: Payload<real>,
                        lams: Payload<real>)
    requires Broadcastable(ones, lams)
    ensures FormulaValue(a, kind, p, ones, lams).Ok? <==> LengthOk(kind, |p|)
    ensures FormulaValue(a, kind, p, ones, lams).Err? ==>
      FormulaValue(a, kind, p, ones, lams).error == IndexError
  {
    var n := |p|;
    if IsPairKind(kind) {
      PairCountIs(n);
      if n > 0 {
        AccumulateInBounds(PairTerms(kind), TermOf(a, PairTerms(kind)), p, Scaled(ones, p[0]), lams,
                           PairCount(n));
      }
    } else if kind.RefractiveIndexInfo? {
      RefractiveIndexInfoCounts(n);
      if n > 0 {
        var init := Scaled(ones, p[0]);
        AccumulateInBounds(PoleTerms, TermOf(a, PoleTerms), p, init, lams, PoleCount(n));
        var poles := Accumulate(PoleTerms, TermOf(a, PoleTerms), p, init, lams, PoleCount(n));
        if poles.Ok? {
          AccumulateInBounds(PowerTerms, TermOf(a, PowerTerms), p, poles.value, lams, PowerCount(n));
        }
      }
    }
  }

  /** A formula whose loops run no term: a two-coefficient model or RefractiveIndexInfo with
      the single coefficient `model_parameters[0]`. */
  predicate NoTerms(kind: ModelKind, n: nat) {
    (IsPairKind(kind) || kind.RefractiveIndexInfo?) && n <= 1
  }

  /** Shape of a formula's result: `ones`' shape when no term runs, otherwise the broadcast of
      `ones` against the coordinates. */
  lemma FormulaShape(a: Arith, kind: ModelKind, p: seq<real>, ones: Payload<real>,
                     lams: Payload<real>)
    requires Broadcastable(ones, lams)
    requires FormulaValue(a, kind, p, ones, lams).Ok?
    ensures var r := FormulaValue(a, kind, p, ones, lams).value;
      NoTerms(kind, |p|) ==> SameShape(r, ones)
    ensures var r := FormulaValue(a, kind, p, ones, lams).value;
      !NoTerms(kind, |p|) ==> Size(r) == BroadcastSize(ones, lams)
    ensures var r := FormulaValue(a, kind, p, ones, lams).value;
      !NoTerms(kind, |p|) ==> (r.Scalar? <==> ones.Scalar? && lams.Scalar?)
  {
    var n := |p|;
    if IsPairKind(kind) {
      PairCountIs(n);
      var f := PairTerms(kind);
      AccumulateShape(f, TermOf(a, f), p, Scaled(ones, p[0]), lams, PairCount(n));
    } else if kind.RefractiveIndexInfo? {
      RefractiveIndexInfoCounts(n);
      var init := Scaled(ones, p[0]);
      AccumulateShape(PoleTerms, TermOf(a, PoleTerms), p, init, lams, PoleCount(n));
      AccumulateInBounds(PoleTerms, TermOf(a, PoleTerms), p, init, lams, PoleCount(n));
      var poles := Accumulate(PoleTerms, TermOf(a, PoleTerms), p, init, lams, PoleCount(n)).value;
      AccumulateShape(PowerTerms, TermOf(a, PowerTerms), p, poles, lams, PowerCount(n));
    }
  }

  /** The nine refractive-index models return real values only. */
  lemma FormulaIsReal(a: Arith, kind: ModelKind, p: seq<real>, ones: Payload<real>,
                      lams: Payload<real>, i: nat)
    requires !kind.Drude? && !kind.DrudeLorentz?
    requires FormulaValue(a, kind, p, ones, lams).Ok?
    requires i < Size(FormulaValue(a, kind, p, ones, lams).value)
    ensures At(FormulaValue(a, kind, p, ones, lams).value, i).im == 0.0
  {
    var n := |p|;
    if IsPairKind(kind) {
      var f := PairTerms(kind);
      var rhs := Accumulate(f, TermOf(a, f), p, Scaled(ones, p[0]), lams, PairCount(n)).value;
      LiftAt(rhs, FinishOf(a, kind), i);
    } else if kind.RefractiveIndexInfo? {
      var init := Scaled(ones, p[0]);
      var poles := Accumulate(PoleTerms, TermOf(a, PoleTerms), p, init, lams, PoleCount(n)).value;
      var rhs := Accumulate(PowerTerms, TermOf(a, PowerTerms), p, poles, lams, PowerCount(n)).value;
      LiftAt(rhs, SqrtOf(a), i);
    } else {
      var cs := p[..Needed(kind)];
      ZipAt(ones, lams, ClosedOf(a, kind, cs), i);
    }
  }

  lemma PairFormulaUnfold(a: Arith, kind: ModelKind, p: seq<real>, ones: Payload<real>,
                          lams: Payload<real>)
    requires IsPairKind(kind)
    requires FormulaValue(a, kind, p, ones, lams).Ok?
    ensures |p| > 0
    ensures var f := PairTerms(kind);
      var acc := Accumulate(f, TermOf(a, f), p, Scaled(ones, p[0]), lams, PairCount(|p|));
      acc.Ok? && FormulaValue(a, kind, p, ones, lams) == Ok(Lift(acc.value, FinishOf(a, kind)))
  {
  }

  /** Each value of a two-coefficient model is its finishing step applied to
      `model_parameters[0]` times the matching element of `ones` plus the sum of all its terms
      at the matching coordinate. */
  lemma PairFormulaValueAt(a: Arith, kind: ModelKind, p: seq<real>, ones: Payload<real>,
                           lams: Payload<real>, i: nat)
    requires IsPairKind(kind) && Broadcastable(ones, lams)
    requires FormulaValue(a, kind, p, ones, lams).Ok? && |p| >= 3
    requires i < Size(FormulaValue(a, kind, p, ones, lams).value)
    ensures PairCount(|p|) > 0 && TermStart(PairTerms(kind), PairCount(|p|) - 1) + 2 <= |p|
    ensures Pick(ones, i) < Size(ones) && Pick(lams, i) < Size(lams)
    ensures At(FormulaValue(a, kind, p, ones, lams).value, i) ==
      FromReal(Finish(a, kind, p[0] * At(ones, Pick(ones, i)) +
        Series(PairTerms(kind), TermOf(a, PairTerms(kind)), p, At(lams, Pick(lams, i)), PairCount(|p|))))
  {
    PairFormulaUnfold(a, kind, p, ones, lams);
    PairSeriesAt(a, kind, p, ones, lams, i);
  }

  /** The pair-model sum at one element, before it is wrapped in `FormulaValue`. */
  lemma {:induction false} PairSeriesAt(a: Arith, kind: ModelKind, p: seq<real>, ones: Payload<real>,
                                        lams: Payload<real>, i: nat)
    requires IsPairKind(kind) && Broadcastable(ones, lams) && |p| >= 3
    requires Accumulate(PairTerms(kind), TermOf(a, PairTerms(kind)), p, Scaled(ones, p[0]), lams, PairCount(|p|)).Ok?
    requires i < Size(Accumulate(PairTerms(kind), TermOf(a, PairTerms(kind)), p, Scaled(ones, p[0]), lams, PairCount(|p|)).value)
    ensures PairCount(|p|) > 0 && TermStart(PairTerms(kind), PairCount(|p|) - 1) + 2 <= |p|
    ensures Pick(ones, i) < Size(ones) && Pick(lams, i) < Size(lams)
    ensures var rhs := Accumulate(PairTerms(kind), TermOf(a, PairTerms(kind)), p, Scaled(ones, p[0]), lams, PairCount(|p|)).value;
      At(Lift(rhs, FinishOf(a, kind)), i) ==
      FromReal(Finish(a, kind, p[0] * At(ones, Pick(ones, i)) +
        Series(PairTerms(kind), TermOf(a, PairTerms(kind)), p, At(lams, Pick(lams, i)), PairCount(|p|))))
  {
    var f := PairTerms(kind);
    var k := PairCount(|p|);
    var rhs := Accumulate(f, TermOf(a, f), p, Scaled(ones, p[0]), lams, k).value;
    PairCountPositive(|p|);
    PairRhsAt(a, kind, p, ones, lams, k, i);
    var sum := p[0] * At(ones, Pick(ones, i)) + Series(f, TermOf(a, f), p, At(lams, Pick(lams, i)), k);
    LiftAt(rhs, FinishOf(a, kind), i);
    assert FinishOf(a, kind)(sum) == FromReal(Finish(a, kind, sum));
  }

  /** The pair-model sum at one element, after `k` terms. */
  lemma {:induction false} PairRhsAt(a: Arith, kind: ModelKind, p: seq<real>, ones: Payload<real>,
                                         lams: Payload<real>, k: nat, i: nat)
    requires IsPairKind(kind) && Broadcastable(ones, lams) && |p| > 0 && k > 0
    requires Accumulate(PairTerms(kind), TermOf(a, PairTerms(kind)), p, Scaled(ones, p[0]), lams, k).Ok?
    requires i < Size(Accumulate(PairTerms(kind), TermOf(a, PairTerms(kind)), p, Scaled(ones, p[0]), lams, k).value)
    ensures TermStart(PairTerms(kind), k - 1) + 2 <= |p|
    ensures Pick(ones, i) < Size(ones) && Pick(lams, i) < Size(lams)
    ensures At(Accumulate(PairTerms(kind), TermOf(a, PairTerms(kind)), p, Scaled(ones, p[0]), lams, k).value, i) ==
      p[0] * At(ones, Pick(ones, i)) + Series(PairTerms(kind), TermOf(a, PairTerms(kind)), p, At(lams, Pick(lams, i)), k)
  {
    var f := PairTerms(kind);
    var init := Scaled(ones, p[0]);
    AccumulateValueAt(f, TermOf(a, f), p, init, lams, k, i);
    var j := Pick(ones, i);
    assert Pick(init, i) == j;
    ScaledAt(ones, p[0], j);
  }

  /** `preprocess` as written sets `ones = 1.0` for every input: it asks whether the Spectrum
      object itself, rather than its values, is a list or an array. With one coefficient a
      two-coefficient model then answers a vector of wavelengths with a scalar. */
  lemma ScalarOnesShrinkVector(a: Arith)
    ensures FormulaValue(a, Cauchy, [1.5], Scalar(1.0), Vector([0.5, 0.6])) ==
      Ok(Scalar(FromReal(1.5)))
  {
    assert Accumulate(PairTerms(Cauchy), TermOf(a, PairTerms(Cauchy)), [1.5],
                      Scaled(Scalar(1.0), 1.5), Vector([0.5, 0.6]), 0) == Ok(Scalar(1.5));
  }

  lemma ScaledAt(ones: Payload<real>, p0: real, j: nat)
    requires j < Size(ones)
    ensures At(Scaled(ones, p0), j) == p0 * At(ones, j)
  {
  }

  /** `np.ones(new_spectrum.shape)`: 1.0 in the shape of the coordinates. */
  function Ones(lams: Payload<real>): (r: Payload<real>)
    ensures SameShape(r, lams)
  {
    Lift(lams, (x: real) => 1.0)
  }

  /** With `ones` shaped like the coordinates, as `preprocess` intends, every formula answers in
      the shape of its input. */
  lemma FormulaKeepsShape(a: Arith, kind: ModelKind, p: seq<real>, lams: Payload<real>)
    requires FormulaValue(a, kind, p, Ones(lams), lams).Ok?
    ensures SameShape(FormulaValue(a, kind, p, Ones(lams), lams).value, lams)
  {
    FormulaShape(a, kind, p, Ones(lams), lams);
  }
}
