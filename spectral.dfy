/** The spectral evaluator family of src/refractive_index_database/spectral_data.py:
    Constant, Interpolation, the eleven Models and Extrapolation, behind one `evaluate`. */
module SpectralData {
  import opened Outcomes
  import opened Numbers
  import opened Tables
  import opened Formulas
  import opened Spectra

  /** An evaluator. `range` holds the values of its `valid_range` Spectrum and `frame` its
      spectrum type and unit, which are also the frame of `valid_range`. */
  datatype Evaluator =
    | Constant(constant: real, range: seq<Bound>, frame: Frame)
    | Interpolation(data: Table, order: nat, range: seq<Bound>, frame: Frame)
    | Model(kind: ModelKind, parameters: seq<real>, range: seq<Bound>, frame: Frame)
    | Extrapolation(base: Evaluator, splineOrder: nat, range: seq<Bound>, frame: Frame)

  /** Everything evaluation needs from outside: the Spectrum unit system, numpy's floating
      point, the `interp1d` lookup over a table, the `splev` lookup of the spline that an
      Extrapolation fits to its base evaluator, and the points `np.geomspace` places between
      two bounds. */
  datatype Env = Env(
    units: Units,
    arith: Arith,
    interp: (Table, nat, real) -> real,
    splev: (Evaluator, nat, real) -> real,
    geomspace: (Bound, Bound) -> seq<real>)

  /** `Constant(constant)` with its default valid range (0, inf) in metres of wavelength. */
  function DefaultConstant(c: real): (e: Evaluator)
    ensures e.Constant? && e.constant == c
    ensures e.range == [Fin(0.0), PosInf] && e.frame == Frame("wavelength", "m")
  {
    Constant(c, [Fin(0.0), PosInf], Frame("wavelength", "m"))
  }

  /** The first column of a table as range values. */
  function FirstColumn(data: Table): (r: seq<Bound>)
    requires data.cols > 0
    ensures |r| == |data.rows|
    ensures forall i :: 0 <= i < |r| ==> r[i] == Fin(data.rows[i][0])
  {
    seq(|data.rows|, i requires 0 <= i < |data.rows| => Fin(data.rows[i][0]))
  }

  /** No two rows share their first entry. */
  predicate DistinctFirstColumn(data: Table)
    requires data.cols > 0
  {
    forall i, j :: 0 <= i < j < |data.rows| ==> data.rows[i][0] != data.rows[j][0]
  }

  /** `Interpolation(data, spectrum_type, unit)` with the default linear order: the valid
      range runs from the least to the greatest value of the first column. A table without a
      first column, without rows, or without a second column is refused by the indexing, and
      `interp1d` of order 1 refuses fewer than two points or a repeated first-column value. */
  function NewInterpolation(data: Table, frame: Frame): (r: Result<Evaluator>)
    ensures data.cols == 0 ==> r == Err(IndexError)
    ensures data.cols > 0 && |data.rows| == 0 ==> r == Err(ValueError)
    ensures data.cols == 1 && |data.rows| > 0 ==> r == Err(IndexError)
    ensures data.cols >= 2 && |data.rows| == 1 ==> r == Err(ValueError)
    ensures data.cols >= 2 && |data.rows| > 1 && !DistinctFirstColumn(data) ==> r == Err(ValueError)
    ensures r.Ok? <==> data.cols >= 2 && |data.rows| >= 2 && DistinctFirstColumn(data)
    ensures r.Ok? ==> r.value.Interpolation? && r.value.frame == frame && r.value.data == data
    ensures r.Ok? ==> |r.value.range| == 2
    ensures r.Ok? ==> r.value.range[0] in FirstColumn(data) && r.value.range[1] in FirstColumn(data)
    ensures r.Ok? ==> forall i :: 0 <= i < |data.rows| ==>
      Within(data.rows[i][0], r.value.range[0], r.value.range[1])
  {
    if data.cols == 0 then Err(IndexError)
    else if |data.rows| == 0 then Err(ValueError)
    else if data.cols == 1 then Err(IndexError)
    else if |data.rows| < 2 || !DistinctFirstColumn(data) then Err(ValueError)
    else
      var column := FirstColumn(data);
      Ok(Interpolation(data, 1, [MinOf(column), MaxOf(column)], frame))
  }

  /** The frame each model requires and the quantity it produces (`input_output`). */
  datatype Requirement = Requirement(frame: Frame, output: string)

  function Required(kind: ModelKind): Requirement {
    if kind.Drude? || kind.DrudeLorentz? then Requirement(Frame("energy", "ev"), "eps")
    else Requirement(Frame("wavelength", "um"), "n")
  }

  /** `Model.__init__`: the spectrum type and unit, as a Spectrum built from them stores them,
      must be the ones the model requires. The parameter vector is not checked here. */
  function NewModel(u: Units, kind: ModelKind, parameters: seq<real>, range: seq<Bound>,
                    frame: Frame): (r: Result<Evaluator>)
    ensures r.Ok? <==> u.canon(frame) == Required(kind).frame
    ensures r.Err? ==> r.error == ValueError
    ensures r.Ok? ==> r.value == Model(kind, parameters, range, frame)
  {
    var stored := u.canon(frame);
    if stored.spectrumType != Required(kind).frame.spectrumType then Err(ValueError)
    else if stored.unit != Required(kind).frame.unit then Err(ValueError)
    else Ok(Model(kind, parameters, range, frame))
  }

  /** Every model produces a refractive index from wavelengths in micrometres, except the two
      Drude models, which produce a permittivity from energies in electronvolts. */
  lemma RequiredTable(kind: ModelKind)
    ensures Required(kind).output == "eps" <==> Required(kind).frame.spectrumType == "energy"
    ensures Required(kind).output == "eps" <==> kind.Drude? || kind.DrudeLorentz?
    ensures Required(kind).output in {"n", "eps"}
  {
  }

  /** `Model.preprocess` as written: range check, conversion to the model's frame, and
      `ones = 1.0`, because the test `isinstance(spectrum, (list, tuple, np.ndarray))` asks about
      the Spectrum object, which is never a list or an array. */
  function PreprocessAsWritten(u: Units, range: seq<Bound>, frame: Frame, s: Sample)
    : (r: Result<(Payload<real>, Payload<real>)>)
    ensures r.Ok? <==> InRange(u, range, frame, s)
    ensures r.Ok? ==> r.value.0 == Scalar(1.0)
  {
    var _ :- Contains(u, range, frame, s);
    Ok((Scalar(1.0), Converted(u, s, frame).values))
  }

  /** `Model.preprocess` as its documentation intends: `ones` has the shape of the input. */
  function Preprocess(u: Units, range: seq<Bound>, frame: Frame, s: Sample)
    : (r: Result<(Payload<real>, Payload<real>)>)
    ensures r.Ok? <==> InRange(u, range, frame, s)
    ensures r.Err? ==> r.error == ValueError
    ensures r.Ok? ==> r.value.1 == Converted(u, s, frame).values
    ensures r.Ok? ==> SameShape(r.value.0, s.values) && SameShape(r.value.1, s.values)
  {
    var _ :- Contains(u, range, frame, s);
    var lams := Converted(u, s, frame).values;
    Ok((Ones(lams), lams))
  }

  function ConstantOf(c: real): real -> Complex {
    (x: real) => FromReal(c)
  }

  function InterpOf(env: Env, data: Table, order: nat): real -> Complex {
    (x: real) => FromReal(env.interp(data, order, x))
  }

  function SplevOf(env: Env, base: Evaluator, order: nat): real -> Complex {
    (x: real) => FromReal(env.splev(base, order, x))
  }

  /** `evaluate(spectrum)`: the value and the state the caller's Spectrum is left in. */
  function EvaluateOn(env: Env, e: Evaluator, s: Sample): (Result<Payload<Complex>>, Sample)
    decreases e
  {
    match e
    case Constant(c, range, frame) =>
      (if InRange(env.units, range, frame, s) then Ok(Lift(s.values, ConstantOf(c)))
       else Err(ValueError), s)
    case Interpolation(data, order, range, frame) =>
      (if InRange(env.units, range, frame, s)
       then Ok(Lift(Converted(env.units, s, frame).values, InterpOf(env, data, order)))
       else Err(ValueError), s)
    case Model(kind, p, range, frame) =>
      (match PreprocessAsWritten(env.units, range, frame, s)
       case Err(err) => Err(err)
       case Ok((ones, lams)) => FormulaValue(env.arith, kind, p, ones, lams), s)
    case Extrapolation(base, order, range, frame) =>
      var (inBase, s1) :=
        if InRange(env.units, base.range, base.frame, s) then EvaluateOn(env, base, s)
        else (Err(ValueError), s);
      if inBase.Ok? || inBase.error != ValueError then (inBase, s1)
      else
        var s2 := Converted(env.units, s1, frame);
        (if InRange(env.units, range, frame, s2) then Ok(Lift(s2.values, SplevOf(env, base, order)))
         else Err(ValueError), s2)
  }

  /** `evaluate(spectrum)` on a Spectrum object; only Extrapolation converts it in place. */
  method Evaluate(env: Env, e: Evaluator, spectrum: Spectrum) returns (r: Result<Payload<Complex>>)
    modifies spectrum
    ensures (r, spectrum.State()) == EvaluateOn(env, e, old(spectrum.State()))
    decreases e
  {
    match e {
      case Constant(c, range, frame) =>
        var _ :- Contains(env.units, range, frame, spectrum.State());
        r := Ok(Lift(spectrum.values, ConstantOf(c)));
      case Interpolation(data, order, range, frame) =>
        var _ :- Contains(env.units, range, frame, spectrum.State());
        var values := Converted(env.units, spectrum.State(), frame).values;
        r := Ok(Lift(values, InterpOf(env, data, order)));
      case Model(kind, p, range, frame) =>
        var prepared :- PreprocessAsWritten(env.units, range, frame, spectrum.State());
        r := EvaluateFormula(env.arith, kind, p, prepared.0, prepared.1);
      case Extrapolation(base, order, range, frame) =>
        var inBase: Result<Payload<Complex>>;
        if Contains(env.units, base.range, base.frame, spectrum.State()).Ok? {
          inBase := Evaluate(env, base, spectrum);
        } else {
          inBase := Err(ValueError);
        }
        if inBase.Ok? || inBase.error != ValueError {
          return inBase;
        }
        spectrum.ConvertInPlace(env.units, frame);
        var _ :- Contains(env.units, range, frame, spectrum.State());
        r := Ok(Lift(spectrum.values, SplevOf(env, base, order)));
    }
  }

  /** `validate_extrap_val` on the values of a range: a value below the first bound replaces it,
      otherwise a value above the second bound replaces that one, and a value between them is
      refused, since there would be nothing to extrapolate. */
  function ExtendRange(r: seq<Bound>, v: real): (res: Result<seq<Bound>>)
    ensures res.Ok? ==> |res.value| == |r|
  {
    if |r| == 0 then Err(IndexError)
    else if Lt(Fin(v), r[0]) then Ok(r[0 := Fin(v)])
    else if |r| < 2 then Err(IndexError)
    else if Lt(r[1], Fin(v)) then Ok(r[1 := Fin(v)])
    else Err(ValueError)
  }

  /** `validate_extrap_val` on the numpy array it updates in place. */
  method ValidateExtrapVal(v: real, a: array<Bound>) returns (r: Result<()>)
    modifies a
    ensures r.Ok? <==> ExtendRange(old(a[..]), v).Ok?
    ensures r.Ok? ==> a[..] == ExtendRange(old(a[..]), v).value
    ensures r.Err? ==> r.error == ExtendRange(old(a[..]), v).error && a[..] == old(a[..])
  {
    if a.Length == 0 {
      return Err(IndexError);
    }
    if Lt(Fin(v), a[0]) {
      a[0] := Fin(v);
    } else if a.Length < 2 {
      return Err(IndexError);
    } else if Lt(a[1], Fin(v)) {
      a[1] := Fin(v);
    } else {
      return Err(ValueError);
    }
    r := Ok(());
  }

  /** An ordered pair of range bounds. */
  predicate Ordered(r: seq<Bound>) {
    |r| >= 2 && Le(r[0], r[1])
  }

  /** On an ordered range, a value is refused exactly when it already lies inside it. */
  lemma ExtendRangeRefusesInside(r: seq<Bound>, v: real)
    requires |r| >= 2
    ensures ExtendRange(r, v).Err? <==> Within(v, r[0], r[1])
    ensures ExtendRange(r, v).Err? ==> ExtendRange(r, v).error == ValueError
  {
  }

  /** Extending an ordered range keeps it ordered, covers the old range and the new value, and
      changes only the first two bounds. */
  lemma ExtendRangeWidens(r: seq<Bound>, v: real)
    requires Ordered(r) && ExtendRange(r, v).Ok?
    ensures Ordered(ExtendRange(r, v).value)
    ensures Le(ExtendRange(r, v).value[0], r[0]) && Le(r[1], ExtendRange(r, v).value[1])
    ensures Within(v, ExtendRange(r, v).value[0], ExtendRange(r, v).value[1])
    ensures ExtendRange(r, v).value[2..] == r[2..]
  {
  }

  /** The loop of `get_extrap_spectrum` over the values of the extended spectrum. */
  function ExtendAll(r: seq<Bound>, vs: seq<real>): (res: Result<seq<Bound>>)
    ensures res.Ok? ==> |res.value| == |r|
    decreases |vs|
  {
    if |vs| == 0 then Ok(r)
    else
      var r1 :- ExtendRange(r, vs[0]);
      ExtendAll(r1, vs[1..])
  }

  /** Every value that extends an ordered range ends up inside the result, which still covers
      the range it started from. */
  lemma {:induction false} ExtendAllCovers(r: seq<Bound>, vs: seq<real>)
    requires Ordered(r) && ExtendAll(r, vs).Ok?
    ensures Ordered(ExtendAll(r, vs).value)
    ensures Le(ExtendAll(r, vs).value[0], r[0]) && Le(r[1], ExtendAll(r, vs).value[1])
    ensures forall k :: 0 <= k < |vs| ==>
      Within(vs[k], ExtendAll(r, vs).value[0], ExtendAll(r, vs).value[1])
    decreases |vs|
  {
    if |vs| > 0 {
      var r1 := ExtendRange(r, vs[0]).value;
      ExtendRangeWidens(r, vs[0]);
      assert ExtendAll(r, vs) == ExtendAll(r1, vs[1..]);
      ExtendAllCovers(r1, vs[1..]);
      var res := ExtendAll(r, vs).value;
      forall k | 0 <= k < |vs|
        ensures Within(vs[k], res[0], res[1])
      {
        if k > 0 {
          assert vs[k] == vs[1..][k - 1];
        }
      }
    }
  }

  /** A value the range refuses stops the loop with that error. */
  lemma ExtendAllStops(r: seq<Bound>, vs: seq<real>, k: nat)
    requires k < |vs| && ExtendRange(r, vs[k]).Err?
    ensures ExtendAll(r, vs[k..]) == Err(ExtendRange(r, vs[k]).error)
  {
    assert vs[k..][0] == vs[k];
  }

  /** An accepted value moves the loop on to the next one. */
  lemma ExtendAllStep(r: seq<Bound>, vs: seq<real>, k: nat)
    requires k < |vs| && ExtendRange(r, vs[k]).Ok?
    ensures ExtendAll(r, vs[k..]) == ExtendAll(ExtendRange(r, vs[k]).value, vs[k + 1..])
  {
    assert vs[k..][0] == vs[k];
    assert vs[k..][1..] == vs[k + 1..];
  }

  /** Evaluators other than Extrapolation refuse an input outside their valid range with
      ValueError, and none of them changes the caller's spectrum. */
  lemma OutOfRangeRefused(env: Env, e: Evaluator, s: Sample)
    requires !e.Extrapolation?
    ensures EvaluateOn(env, e, s).1 == s
    ensures !InRange(env.units, e.range, e.frame, s) ==> EvaluateOn(env, e, s).0 == Err(ValueError)
    ensures InRange(env.units, e.range, e.frame, s) && !e.Model? ==> EvaluateOn(env, e, s).0.Ok?
  {
  }

  /** A Constant answers its constant once per input value, or once for a scalar input. */
  lemma ConstantBroadcasts(env: Env, c: real, range: seq<Bound>, frame: Frame, s: Sample, i: nat)
    requires InRange(env.units, range, frame, s) && i < Size(s.values)
    ensures var r := EvaluateOn(env, Constant(c, range, frame), s).0;
      r.Ok? && SameShape(r.value, s.values) && At(r.value, i) == FromReal(c)
  {
    LiftAt(s.values, ConstantOf(c), i);
  }

  /** An Interpolation looks up each input value converted into its own frame. */
  lemma InterpolationLooksUp(env: Env, data: Table, order: nat, range: seq<Bound>, frame: Frame,
                             s: Sample, i: nat)
    requires InRange(env.units, range, frame, s) && i < Size(s.values)
    ensures var r := EvaluateOn(env, Interpolation(data, order, range, frame), s).0;
      r.Ok? && SameShape(r.value, s.values) &&
      At(r.value, i) == FromReal(env.interp(data, order, env.units.convert(At(s.values, i), s.frame, frame)))
  {
    var lams := Converted(env.units, s, frame).values;
    LiftAt(s.values, ConvertOf(env.units, s.frame, frame), i);
    LiftAt(lams, InterpOf(env, data, order), i);
  }

  /** A Model inside its range answers exactly when its parameter vector has a length the
      formula can index, and raises IndexError otherwise. With the scalar `ones` of `preprocess`
      as written, the answer has the shape of the input when the formula has a term that reads
      the coordinates, and is a scalar when it has none. */
  lemma ModelAnswers(env: Env, kind: ModelKind, p: seq<real>, range: seq<Bound>, frame: Frame,
                     s: Sample)
    requires InRange(env.units, range, frame, s)
    ensures var r := EvaluateOn(env, Model(kind, p, range, frame), s).0;
      (r.Ok? <==> LengthOk(kind, |p|)) && (r.Err? ==> r.error == IndexError) &&
      (r.Ok? && !NoTerms(kind, |p|) ==> SameShape(r.value, s.values)) &&
      (r.Ok? && NoTerms(kind, |p|) ==> r.value.Scalar?)
  {
    var lams := Converted(env.units, s, frame).values;
    assert Broadcastable(Scalar(1.0), lams);
    FormulaInBounds(env.arith, kind, p, Scalar(1.0), lams);
    if FormulaValue(env.arith, kind, p, Scalar(1.0), lams).Ok? {
      FormulaShape(env.arith, kind, p, Scalar(1.0), lams);
    }
  }

  /** A one-coefficient Cauchy model in range answers a two-element spectrum with a scalar, as
      written; with `ones` shaped like the input, as intended, the formula answers a
      two-element vector. */
  lemma AsWrittenPreprocessShrinks(env: Env, range: seq<Bound>, frame: Frame, s: Sample)
    requires InRange(env.units, range, frame, s)
    requires Converted(env.units, s, frame).values == Vector([0.5, 0.6])
    ensures var r := EvaluateOn(env, Model(Cauchy, [1.5], range, frame), s).0;
      r.Ok? && r.value.Scalar?
    ensures var (ones, lams) := Preprocess(env.units, range, frame, s).value;
      var r := FormulaValue(env.arith, Cauchy, [1.5], ones, lams);
      r.Ok? && Size(r.value) == 2 && r.value.Vector?
  {
    ScalarOnesShrinkVector(env.arith);
    var lams := Converted(env.units, s, frame).values;
    FormulaInBounds(env.arith, Cauchy, [1.5], Ones(lams), lams);
    FormulaKeepsShape(env.arith, Cauchy, [1.5], lams);
  }

  /** An Extrapolation whose base accepts the input answers as the base does. */
  lemma ExtrapolationDelegates(env: Env, e: Evaluator, s: Sample)
    requires e.Extrapolation? && InRange(env.units, e.base.range, e.base.frame, s)
    requires EvaluateOn(env, e.base, s).0 != Err(ValueError)
    ensures EvaluateOn(env, e, s) == EvaluateOn(env, e.base, s)
  {
  }

  /** Outside the base range an Extrapolation converts the caller's spectrum into its own
      frame and answers from the spline exactly when the converted values lie in its range. */
  lemma ExtrapolationFallsBack(env: Env, e: Evaluator, s: Sample)
    requires e.Extrapolation? && !InRange(env.units, e.base.range, e.base.frame, s)
    ensures var s2 := Converted(env.units, s, e.frame);
      EvaluateOn(env, e, s).1 == s2 &&
      (EvaluateOn(env, e, s).0.Ok? <==> InRange(env.units, e.range, e.frame, s2)) &&
      (EvaluateOn(env, e, s).0.Err? ==> EvaluateOn(env, e, s).0.error == ValueError)
  {
  }

  /** `get_extrap_spectrum`, with the error raised for more than two extrapolation values as a
      parameter: the extended spectrum, left converted into the base range's frame, and the
      range it extends the base range to. */
  function ExtrapSpectrumRaising(tooMany: Error, u: Units, base: Evaluator, s: Sample)
    : (Result<seq<Bound>>, Sample)
  {
    var s1 := Converted(u, s, u.canon(base.frame));
    (match s1.values
     case Scalar(v) => ExtendRange(base.range, v)
     case Vector(vs) => if |vs| > 2 then Err(tooMany) else ExtendAll(base.range, vs), s1)
  }

  /** As written, the message for too many values names an undefined variable, so building it
      raises NameError before the intended ValueError is raised. */
  function ExtrapSpectrumAsWritten(u: Units, base: Evaluator, s: Sample): (Result<seq<Bound>>, Sample) {
    ExtrapSpectrumRaising(NameError, u, base, s)
  }

  /** `get_extrap_spectrum` as intended: too many values is a ValueError. */
  function ExtrapSpectrum(u: Units, base: Evaluator, s: Sample): (Result<seq<Bound>>, Sample) {
    ExtrapSpectrumRaising(ValueError, u, base, s)
  }

  lemma TooManyValuesRaiseNameError(u: Units, base: Evaluator, s: Sample)
    requires s.values == Vector([1.0, 2.0, 3.0])
    ensures ExtrapSpectrumAsWritten(u, base, s).0 == Err(NameError)
    ensures ExtrapSpectrum(u, base, s).0 == Err(ValueError)
  {
    assert Size(Converted(u, s, u.canon(base.frame)).values) == 3;
  }

  /** The program as written and the corrected one differ only in the error raised for more
      than two extrapolation values; both leave the caller's spectrum converted alike. */
  lemma ExtrapSpectrumDiffersOnTooMany(u: Units, base: Evaluator, s: Sample)
    ensures var s1 := Converted(u, s, u.canon(base.frame));
      ExtrapSpectrumAsWritten(u, base, s) != ExtrapSpectrum(u, base, s) <==>
        s1.values.Vector? && |s1.values.xs| > 2
    ensures ExtrapSpectrumAsWritten(u, base, s).1 == ExtrapSpectrum(u, base, s).1
  {
  }

  /** The extended range covers the base range and every extrapolation value, converted into
      the frame of the base range; the caller's spectrum is left converted into that frame. */
  lemma ExtrapSpectrumCovers(u: Units, base: Evaluator, s: Sample)
    requires Ordered(base.range) && ExtrapSpectrum(u, base, s).0.Ok?
    ensures var (r, s1) := ExtrapSpectrum(u, base, s);
      Ordered(r.value) && Le(r.value[0], base.range[0]) && Le(base.range[1], r.value[1]) &&
      s1 == Converted(u, s, u.canon(base.frame)) &&
      forall i :: 0 <= i < Size(s1.values) ==> Within(At(s1.values, i), r.value[0], r.value[1])
  {
    var s1 := Converted(u, s, u.canon(base.frame));
    match s1.values
    case Scalar(v) =>
      ExtendRangeWidens(base.range, v);
    case Vector(vs) =>
      ExtendAllCovers(base.range, vs);
  }

  /** `get_extrap_spectrum` on the caller's Spectrum object, which it converts in place. */
  method GetExtrapSpectrum(u: Units, base: Evaluator, extended: Spectrum)
    returns (r: Result<seq<Bound>>)
    modifies extended
    ensures (r, extended.State()) == ExtrapSpectrumAsWritten(u, base, old(extended.State()))
  {
    extended.ConvertInPlace(u, u.canon(base.frame));
    var newRange := new Bound[|base.range|](i requires 0 <= i < |base.range| => base.range[i]);
    assert newRange[..] == base.range;
    match extended.values {
      case Scalar(v) =>
        var checked := ValidateExtrapVal(v, newRange);
        if checked.Err? {
          return Err(checked.error);
        }
      case Vector(vs) =>
        if |vs| > 2 {
          // formatting the message reads the undefined name `extrap`
          return Err(NameError);
        }
        ghost var converted := extended.State();
        for k := 0 to |vs|
          invariant extended.State() == converted
          invariant ExtendAll(base.range, vs) == ExtendAll(newRange[..], vs[k..])
        {
          var before := newRange[..];
          var checked := ValidateExtrapVal(vs[k], newRange);
          if checked.Err? {
            ExtendAllStops(before, vs, k);
            return Err(checked.error);
          }
          ExtendAllStep(before, vs, k);
        }
    }
    r := Ok(newRange[..]);
  }

  /** `suggest_spectrum`: `np.geomspace` from the least to the greatest value of the valid
      range, as a Spectrum in the evaluator's frame. `np.min` of no values, and a geometric
      sequence that would start or end at zero, raise ValueError. */
  function Suggested(env: Env, e: Evaluator): (r: Result<Sample>)
    ensures r.Ok? <==> |e.range| > 0 && MinOf(e.range) != Fin(0.0) && MaxOf(e.range) != Fin(0.0)
    ensures r.Err? ==> r.error == ValueError
    ensures r.Ok? ==> r.value.values.Vector? && r.value.frame == env.units.canon(e.frame)
  {
    if |e.range| == 0 then Err(ValueError)
    else
      var lo, hi := MinOf(e.range), MaxOf(e.range);
      if lo == Fin(0.0) || hi == Fin(0.0) then Err(ValueError)
      else Ok(Sample(Vector(env.geomspace(lo, hi)), env.units.canon(e.frame)))
  }

  /** `Extrapolation(spectral_data, extended_spectrum, spline_order)`: the valid range runs from
      the least to the greatest bound of the extended range, in the base evaluator's frame; then
      `extrapolate_data` evaluates the base on its suggested spectrum, whose errors propagate. */
  function Extrapolated(env: Env, base: Evaluator, s: Sample, order: nat)
    : (Result<Evaluator>, Sample)
  {
    var (extended, s1) := ExtrapSpectrumAsWritten(env.units, base, s);
    (match extended
     case Err(err) => Err(err)
     case Ok(range) =>
       if |range| == 0 then Err(ValueError)
       else match Suggested(env, base)
         case Err(err) => Err(err)
         case Ok(sample) =>
           match EvaluateOn(env, base, sample).0
           case Err(err) => Err(err)
           case Ok(_) => Ok(Extrapolation(base, order, [MinOf(range), MaxOf(range)], base.frame)), s1)
  }

  method NewExtrapolation(env: Env, base: Evaluator, extended: Spectrum, order: nat)
    returns (r: Result<Evaluator>)
    modifies extended
    ensures (r, extended.State()) == Extrapolated(env, base, old(extended.State()), order)
  {
    var range :- GetExtrapSpectrum(env.units, base, extended);
    if |range| == 0 {
      return Err(ValueError);
    }
    var suggested :- Suggested(env, base);
    var spectrum := new Spectrum(suggested.values, suggested.frame);
    var evaluation := Evaluate(env, base, spectrum);
    if evaluation.Err? {
      return Err(evaluation.error);
    }
    r := Ok(Extrapolation(base, order, [MinOf(range), MaxOf(range)], base.frame));
  }

  /** An Extrapolation built on an evaluator with an ordered two-bound range is valid over the
      base range and over every extrapolation value. */
  lemma ExtrapolationCovers(env: Env, base: Evaluator, s: Sample, order: nat)
    requires |base.range| == 2 && Le(base.range[0], base.range[1])
    requires Extrapolated(env, base, s, order).0.Ok?
    ensures var (e, s1) := Extrapolated(env, base, s, order);
      e.value.range == ExtrapSpectrumAsWritten(env.units, base, s).0.value &&
      Le(e.value.range[0], base.range[0]) && Le(base.range[1], e.value.range[1]) &&
      forall i :: 0 <= i < Size(s1.values) ==>
        Within(At(s1.values, i), e.value.range[0], e.value.range[1])
  {
    ExtrapSpectrumDiffersOnTooMany(env.units, base, s);
    ExtrapSpectrumCovers(env.units, base, s);
    var range := ExtrapSpectrum(env.units, base, s).0.value;
    assert MinOf(range) == range[0] by {
      assert MinOf(range) in range;
    }
    assert MaxOf(range) == range[1] by {
      assert MaxOf(range) in range;
    }
  }

  /** Building an Extrapolation evaluates the base on its suggested spectrum: a base range
      bounded by zero is a ValueError, otherwise the build succeeds exactly when that evaluation
      does, and a Model base whose samples lie in its range fails exactly when its formula
      cannot index its parameters, with IndexError. */
  lemma ExtrapolationSamplesBase(env: Env, base: Evaluator, s: Sample, order: nat)
    requires ExtrapSpectrumAsWritten(env.units, base, s).0.Ok?
    requires |ExtrapSpectrumAsWritten(env.units, base, s).0.value| > 0
    ensures Suggested(env, base).Err? ==> Extrapolated(env, base, s, order).0 == Err(ValueError)
    ensures Suggested(env, base).Ok? ==>
      (Extrapolated(env, base, s, order).0.Ok? <==> EvaluateOn(env, base, Suggested(env, base).value).0.Ok?)
    ensures (Suggested(env, base).Ok? && base.Model? &&
             InRange(env.units, base.range, base.frame, Suggested(env, base).value)) ==>
        (Extrapolated(env, base, s, order).0.Ok? <==> LengthOk(base.kind, |base.parameters|)) &&
        (Extrapolated(env, base, s, order).0.Err? ==> Extrapolated(env, base, s, order).0.error == IndexError)
  {
    if Suggested(env, base).Ok? && base.Model? {
      var sample := Suggested(env, base).value;
      if InRange(env.units, base.range, base.frame, sample) {
        ModelAnswers(env, base.kind, base.parameters, base.range, base.frame, sample);
      }
    }
  }

  /** A Constant with its default range (0, inf) cannot be extrapolated: its suggested spectrum
      would start at zero. */
  lemma DefaultConstantNotExtrapolated(env: Env, c: real, s: Sample, order: nat)
    ensures Extrapolated(env, DefaultConstant(c), s, order).0.Err?
  {
    var base := DefaultConstant(c);
    assert MinOf(base.range) == Fin(0.0);
  }
}
