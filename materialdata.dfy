/** `MaterialData` of src/refractive_index_database/material_data.py: a material held as a
    quantity name ('nk' for the refractive index, 'eps' for the permittivity) and up to three
    spectral evaluators, for the real part, the imaginary part, or both at once. */
module Materials {
  import opened Outcomes
  import opened Strings
  import opened Numbers
  import opened Tables
  import opened Formulas
  import opened Spectra
  import opened SpectralData
  import opened MaterialFiles
  import opened MaterialArgs
  import RefractiveIndexIo

  /** What the class needs from outside: evaluation, numpy's complex square root, and the
      `float` and `int` conversions of a word. */
  datatype Context = Context(
    env: Env,
    csqrt: Complex -> Complex,
    parse: string -> Option<real>,
    toInt: string -> Option<int>)

  /** `self.data`: the quantity name and the evaluators of its parts. */
  datatype Slots = Slots(
    name: string,
    realPart: Option<Evaluator>,
    imagPart: Option<Evaluator>,
    complexPart: Option<Evaluator>)

  /** The part of the quantity an evaluator provides. */
  datatype Part = RealPart | ImagPart | ComplexPart

  /** The state of a MaterialData object: `meta_data`, `data`, `defaults` and `_file_data`. */
  datatype MaterialState = MaterialState(
    metaData: map<string, Value>,
    data: Slots,
    defaults: Frame,
    fileData: Option<FileDict>)

  const InitialMetaKeys: seq<string> := ["Reference", "Comment", "Name", "FullName", "Author", "Alias"]
  const CopiedMetaKeys: seq<string> := ["Reference", "Comment", "Name", "FullName", "Author"]

  /** The state `__init__` sets before it processes its input. */
  function Initial(defaults: Frame): MaterialState {
    MaterialState(Blanks(InitialMetaKeys), Slots("", None, None, None), defaults, None)
  }

  function Put(d: Slots, part: Part, e: Evaluator): Slots {
    match part
    case RealPart => d.(realPart := Some(e))
    case ImagPart => d.(imagPart := Some(e))
    case ComplexPart => d.(complexPart := Some(e))
  }

  /** The evaluator of a quantity part that nothing else set: a constant zero. */
  function Zero(): Evaluator {
    DefaultConstant(0.0)
  }

  /** `_complete_partial_data`: missing real and imaginary parts become constant zeros. */
  function Completed(d: Slots): (r: Slots)
    ensures r.realPart.Some? && r.imagPart.Some?
    ensures r.name == d.name && r.complexPart == d.complexPart
    ensures d.realPart.Some? ==> r.realPart == d.realPart
    ensures d.imagPart.Some? ==> r.imagPart == d.imagPart
    ensures d.realPart.None? ==> r.realPart == Some(Zero())
    ensures d.imagPart.None? ==> r.imagPart == Some(Zero())
  {
    d.(realPart := if d.realPart.None? then Some(Zero()) else d.realPart,
       imagPart := if d.imagPart.None? then Some(Zero()) else d.imagPart)
  }

  // ---------------------------------------------------------------------------------------
  // Fixed values

  /** `_process_fixed_value`: the first fixed input given becomes constant parts. */
  function FixedValueSlots(d: Slots, p: Inputs): (r: Result<Slots>)
    ensures r.Ok? <==> p.fixedN.Some? || p.fixedNk.Some? || p.fixedEpsR.Some? || p.fixedEps.Some?
    ensures r.Err? ==> r.error == RuntimeError
    ensures r.Ok? ==> r.value.complexPart == d.complexPart
    ensures r.Ok? ==> (r.value.name == "nk" <==> p.fixedN.Some? || p.fixedNk.Some?)
    ensures r.Ok? ==> r.value.name == "nk" || r.value.name == "eps"
  {
    if p.fixedN.Some? then
      Ok(d.(name := "nk", realPart := Some(DefaultConstant(p.fixedN.value))))
    else if p.fixedNk.Some? then
      Ok(d.(name := "nk", realPart := Some(DefaultConstant(p.fixedNk.value.re)),
            imagPart := Some(DefaultConstant(p.fixedNk.value.im))))
    else if p.fixedEpsR.Some? then
      Ok(d.(name := "eps", realPart := Some(DefaultConstant(p.fixedEpsR.value))))
    else if p.fixedEps.Some? then
      Ok(d.(name := "eps", realPart := Some(DefaultConstant(p.fixedEps.value.re)),
            imagPart := Some(DefaultConstant(p.fixedEps.value.im))))
    else Err(RuntimeError)
  }

  function FixedValueApplied(st: MaterialState, p: Inputs): (Result<()>, MaterialState) {
    match FixedValueSlots(st.data, p)
    case Err(e) => (Err(e), st)
    case Ok(d) => (Ok(()), st.(data := d))
  }

  /** The complex value a fixed input stands for. */
  function FixedQuantity(p: Inputs): Complex {
    if p.fixedN.Some? then FromReal(p.fixedN.value)
    else if p.fixedNk.Some? then p.fixedNk.value
    else if p.fixedEpsR.Some? then FromReal(p.fixedEpsR.value)
    else if p.fixedEps.Some? then p.fixedEps.value
    else FromReal(0.0)
  }

  // ---------------------------------------------------------------------------------------
  // Models

  /** The model classes of spectral_data.py by their class names. */
  function ModelNamed(name: string): Option<ModelKind> {
    if name == "Sellmeier" then Some(Sellmeier)
    else if name == "Sellmeier2" then Some(Sellmeier2)
    else if name == "Polynomial" then Some(Polynomial)
    else if name == "RefractiveIndexInfo" then Some(RefractiveIndexInfo)
    else if name == "Cauchy" then Some(Cauchy)
    else if name == "Gases" then Some(Gases)
    else if name == "Herzberger" then Some(Herzberger)
    else if name == "Retro" then Some(Retro)
    else if name == "Exotic" then Some(Exotic)
    else if name == "Drude" then Some(Drude)
    else if name == "DrudeLorentz" then Some(DrudeLorentz)
    else None
  }

  /** The class name of each model. */
  function ClassName(kind: ModelKind): string {
    match kind
    case Sellmeier => "Sellmeier"
    case Sellmeier2 => "Sellmeier2"
    case Polynomial => "Polynomial"
    case RefractiveIndexInfo => "RefractiveIndexInfo"
    case Cauchy => "Cauchy"
    case Gases => "Gases"
    case Herzberger => "Herzberger"
    case Retro => "Retro"
    case Exotic => "Exotic"
    case Drude => "Drude"
    case DrudeLorentz => "DrudeLorentz"
  }

  /** `_str_to_class` finds a model exactly by its class name. */
  lemma ModelNamedInverse(name: string, kind: ModelKind)
    ensures ModelNamed(ClassName(kind)) == Some(kind)
    ensures ModelNamed(name) == Some(kind) ==> ClassName(kind) == name
  {
  }

  /** `method_ids` of `_process_formula_data`. */
  function MethodId(id: int): (r: Result<string>)
    ensures r.Ok? <==> 1 <= id <= 9
    ensures r.Err? ==> r.error == KeyError
  {
    if id == 1 then Ok("Sellmeier")
    else if id == 2 then Ok("Sellmeier2")
    else if id == 3 then Ok("Polynomial")
    else if id == 4 then Ok("RefractiveIndexInfo")
    else if id == 5 then Ok("Cauchy")
    else if id == 6 then Ok("Gases")
    else if id == 7 then Ok("Herzberger")
    else if id == 8 then Ok("Retro")
    else if id == 9 then Ok("Exotic")
    else Err(KeyError)
  }

  /** Formula numbers 1 to 9 name the nine refractive-index models, never a Drude model. */
  lemma {:induction false} MethodIdsNameModels(id: int)
    requires 1 <= id <= 9
    ensures ModelNamed(MethodId(id).value).Some?
    ensures Required(ModelNamed(MethodId(id).value).value).output == "n"
  {
    var kind := ModelNamed(MethodId(id).value).value;
    RequiredTable(kind);
  }

  /** The quantity and the part each model output sets; other outputs are a ValueError. */
  function OutputTarget(output: string): (r: Result<(string, Part)>)
    ensures r.Ok? <==> output in ["n", "k", "nk", "epsr", "epsi", "eps"]
    ensures r.Err? ==> r.error == ValueError
    ensures r.Ok? ==> (r.value.0 == "nk" <==> output in ["n", "k", "nk"])
    ensures r.Ok? ==> (r.value.1 == RealPart <==> output in ["n", "epsr"])
    ensures r.Ok? ==> (r.value.1 == ComplexPart <==> output in ["nk", "eps"])
  {
    if output == "n" then Ok(("nk", RealPart))
    else if output == "k" then Ok(("nk", ImagPart))
    else if output == "nk" then Ok(("nk", ComplexPart))
    else if output == "epsr" then Ok(("eps", RealPart))
    else if output == "epsi" then Ok(("eps", ImagPart))
    else if output == "eps" then Ok(("eps", ComplexPart))
    else Err(ValueError)
  }

  function OrElse(o: Option<string>, fallback: string): string {
    if o.Some? then o.value else fallback
  }

  /** `_process_model_dict`: the result and the state afterwards. A given spectrum type or unit
      replaces the default before the model is built, so it stays when the build fails. */
  function ModelDictApplied(u: Units, st: MaterialState, kw: ModelKw): (Result<()>, MaterialState) {
    if kw.name.None? then (Err(KeyError), st)
    else match ModelNamed(kw.name.value)
      case None => (Err(NameError), st)
      case Some(kind) =>
        var st1 := st.(defaults := Frame(OrElse(kw.spectrumType, st.defaults.spectrumType),
                                         OrElse(kw.unit, st.defaults.unit)));
        if kw.parameters.None? || kw.validRange.None? then (Err(KeyError), st1)
        else
          var frame := Frame(OrElse(kw.spectrumType, "wavelength"), OrElse(kw.unit, "m"));
          match NewModel(u, kind, kw.parameters.value, kw.validRange.value, frame)
          case Err(e) => (Err(e), st1)
          case Ok(model) =>
            match OutputTarget(Required(kind).output)
            case Err(e) => (Err(e), st1)
            case Ok(target) =>
              (Ok(()), st1.(data := Put(st1.data, target.1, model).(name := target.0)))
  }

  /** A model dictionary is accepted exactly when it names a model, carries parameters and a
      valid range, and its frame is the one the model requires; the model then sets the real
      part of the refractive index or, for the Drude models, the whole permittivity. */
  lemma ModelDictOutcome(u: Units, st: MaterialState, kw: ModelKw)
    ensures var (r, st1) := ModelDictApplied(u, st, kw);
      (kw.name.None? ==> r == Err(KeyError) && st1 == st) &&
      (kw.name.Some? && ModelNamed(kw.name.value).None? ==> r == Err(NameError) && st1 == st) &&
      (r.Ok? <==> kw.name.Some? && ModelNamed(kw.name.value).Some? && kw.parameters.Some? &&
                  kw.validRange.Some? &&
                  u.canon(Frame(OrElse(kw.spectrumType, "wavelength"), OrElse(kw.unit, "m"))) ==
                  Required(ModelNamed(kw.name.value).value).frame)
    ensures var (r, st1) := ModelDictApplied(u, st, kw);
      r.Ok? ==>
        var kind := ModelNamed(kw.name.value).value;
        var model := Model(kind, kw.parameters.value, kw.validRange.value,
                           Frame(OrElse(kw.spectrumType, "wavelength"), OrElse(kw.unit, "m")));
        st1.metaData == st.metaData && st1.fileData == st.fileData &&
        st1.defaults == Frame(OrElse(kw.spectrumType, st.defaults.spectrumType),
                              OrElse(kw.unit, st.defaults.unit)) &&
        (if kind.Drude? || kind.DrudeLorentz?
         then st1.data == st.data.(name := "eps", complexPart := Some(model))
         else st1.data == st.data.(name := "nk", realPart := Some(model)))
  {
    if kw.name.Some? && ModelNamed(kw.name.value).Some? {
      RequiredTable(ModelNamed(kw.name.value).value);
    }
  }

  // ---------------------------------------------------------------------------------------
  // File records

  /** `mapping[key]` on a record's meta data. */
  function MetaValue(m: map<string, Value>, key: string): (r: Result<Value>)
    ensures r.Ok? <==> key in m
    ensures r.Err? ==> r.error == KeyError
    ensures r.Ok? ==> r.value == m[key]
  {
    if key in m then Ok(m[key]) else Err(KeyError)
  }

  /** Python truthiness of a record value; an array of more than one element has none. */
  function Truthy(v: Value): (r: Result<bool>)
    ensures v.Text? ==> r == Ok(v.text != "")
    ensures r.Err? ==> (v.Array? || v.Flat?) && r.error == ValueError
  {
    match v
    case Text(t) => Ok(t != "")
    case Number(x) => Ok(x != 0.0)
    case Items(xs) => Ok(|xs| > 0)
    case Mapping(es) => Ok(|es| > 0)
    case Array(t) =>
      if |t.rows| == 0 || t.cols == 0 then Ok(false)
      else if |t.rows| == 1 && t.cols == 1 then Ok(t.rows[0][0] != 0.0)
      else Err(ValueError)
    case Flat(xs) =>
      if |xs| == 0 then Ok(false)
      else if |xs| == 1 then Ok(xs[0] != 0.0)
      else Err(ValueError)
  }

  /** A meta data entry that, when set, replaces a default spectrum type or unit. */
  function Chosen(m: map<string, Value>, key: string, fallback: string): (r: Result<string>)
    ensures key !in m ==> r == Err(KeyError)
    ensures key in m && m[key].Text? ==> r == Ok(if m[key].text != "" then m[key].text else fallback)
    ensures r.Ok? ==> r.value == fallback || (key in m && m[key] == Text(r.value))
  {
    var v :- MetaValue(m, key);
    var set_ :- Truthy(v);
    if !set_ then Ok(fallback)
    else if v.Text? then Ok(v.text)
    else Err(TypeError)
  }

  /** `meta_data['DataType'].split()` unpacked into a data type and an identifier. */
  function DataTypeOf(m: map<string, Value>): (r: Result<(string, string)>)
    ensures r.Ok? <==> "DataType" in m && m["DataType"].Text? && |Words(m["DataType"].text)| == 2
    ensures r.Ok? ==> Words(m["DataType"].text) == [r.value.0, r.value.1]
    ensures "DataType" !in m ==> r == Err(KeyError)
    ensures "DataType" in m && !m["DataType"].Text? ==> r == Err(AttributeError)
    ensures "DataType" in m && m["DataType"].Text? && |Words(m["DataType"].text)| != 2 ==> r == Err(ValueError)
  {
    var v :- MetaValue(m, "DataType");
    if !v.Text? then Err(AttributeError)
    else
      var words := Words(v.text);
      if |words| != 2 then Err(ValueError) else Ok((words[0], words[1]))
  }

  /** The argument `process_tabulated_data` receives. */
  function TabulatedOf(v: Value): Tabulated {
    match v
    case Text(t) => TextTable(t)
    case Array(t) => ArrayTable(t)
    case Flat(xs) => FlatArray(xs)
    case _ => OtherTable
  }

  /** `processed[:, [0, j]]`: the first column and column `j`. */
  function Columns(t: Table, j: nat): (r: Result<Table>)
    ensures r.Ok? <==> j < t.cols
    ensures r.Err? ==> r.error == IndexError
    ensures r.Ok? ==> r.value.cols == 2 && |r.value.rows| == |t.rows|
    ensures r.Ok? ==> forall i :: 0 <= i < |t.rows| ==> r.value.rows[i] == [t.rows[i][0], t.rows[i][j]]
  {
    if j >= t.cols then Err(IndexError)
    else Ok(Matrix(seq(|t.rows|, i requires 0 <= i < |t.rows| => [t.rows[i][0], t.rows[i][j]]), 2))
  }

  /** `_spec_data_from_table`: a single row is a constant valid only at its spectral value,
      several rows an interpolation over the first column. */
  function SpecDataFromTable(frame: Frame, data: Table): (r: Result<Evaluator>)
    ensures r.Ok? <==> data.cols >= 2 && (|data.rows| == 1 || (|data.rows| > 1 && DistinctFirstColumn(data)))
    ensures |data.rows| == 0 && data.cols > 0 ==> r == Err(ValueError)
    ensures r.Err? ==> (r.error == IndexError <==> data.cols == 0 || (data.cols == 1 && |data.rows| > 0))
    ensures r.Err? && r.error != IndexError ==> r.error == ValueError
    ensures r.Ok? ==> r.value.frame == frame && |r.value.range| == 2
    ensures r.Ok? ==> forall i :: 0 <= i < |data.rows| ==>
      Within(data.rows[i][0], r.value.range[0], r.value.range[1])
    ensures r.Ok? && |data.rows| == 1 ==> r.value == Constant(data.rows[0][1],
      [Fin(data.rows[0][0]), Fin(data.rows[0][0])], frame)
    ensures r.Ok? && |data.rows| > 1 ==> r.value.Interpolation? && r.value.data == data
  {
    if |data.rows| == 1 then
      if data.cols < 2 then Err(IndexError)
      else
        var x := data.rows[0][0];
        Ok(Constant(data.rows[0][1], [Fin(x), Fin(x)], frame))
    else NewInterpolation(data, frame)
  }

  /** The state after one evaluator was built and stored. */
  function Stored(st: MaterialState, built: Result<Evaluator>, part: Part): (Result<()>, MaterialState) {
    match built
    case Err(e) => (Err(e), st)
    case Ok(e) => (Ok(()), st.(data := Put(st.data, part, e)))
  }

  function ColumnData(frame: Frame, t: Table, j: nat): Result<Evaluator> {
    match Columns(t, j)
    case Err(e) => Err(e)
    case Ok(c) => SpecDataFromTable(frame, c)
  }

  /** The identifier of a tabulated dataset selects the parts its table sets. */
  function TableSlots(st: MaterialState, identifier: string, t: Table): (Result<()>, MaterialState) {
    if identifier == "nk" then
      var named := st.(data := st.data.(name := "nk"));
      var (r, withReal) := Stored(named, ColumnData(st.defaults, t, 1), RealPart);
      if r.Err? then (r, withReal)
      else Stored(withReal, ColumnData(st.defaults, t, 2), ImagPart)
    else if identifier == "n" then
      Stored(st.(data := st.data.(name := "nk")), SpecDataFromTable(st.defaults, t), RealPart)
    else if identifier == "k" then
      Stored(st.(data := st.data.(name := "nk")), SpecDataFromTable(st.defaults, t), ImagPart)
    else (Ok(()), st)
  }

  /** A tabulated dataset: its spectrum type and unit, when set, become the defaults, then its
      table sets the parts. */
  function TabulatedApplied(st: MaterialState, identifier: string, t: Table, meta: map<string, Value>)
    : (Result<()>, MaterialState)
  {
    match Chosen(meta, "SpectrumType", st.defaults.spectrumType)
    case Err(e) => (Err(e), st)
    case Ok(stype) =>
      var st1 := st.(defaults := st.defaults.(spectrumType := stype));
      match Chosen(meta, "Unit", st1.defaults.unit)
      case Err(e) => (Err(e), st1)
      case Ok(unit) => TableSlots(st1.(defaults := st1.defaults.(unit := unit)), identifier, t)
  }

  /** A tabulated 'nk' dataset sets both parts of the refractive index, each valid at every
      spectral value of the table. */
  lemma TabulatedNkCovers(st: MaterialState, t: Table, meta: map<string, Value>)
    requires TabulatedApplied(st, "nk", t, meta).0.Ok?
    ensures var st1 := TabulatedApplied(st, "nk", t, meta).1;
      st1.data.name == "nk" && st1.data.realPart.Some? && st1.data.imagPart.Some? &&
      t.cols >= 3 && |t.rows| > 0 &&
      forall i :: 0 <= i < |t.rows| ==>
        Within(t.rows[i][0], st1.data.realPart.value.range[0], st1.data.realPart.value.range[1]) &&
        Within(t.rows[i][0], st1.data.imagPart.value.range[0], st1.data.imagPart.value.range[1])
  {
    var stype := Chosen(meta, "SpectrumType", st.defaults.spectrumType).value;
    var st1 := st.(defaults := st.defaults.(spectrumType := stype));
    var unit := Chosen(meta, "Unit", st1.defaults.unit).value;
    var st2 := st1.(defaults := st1.defaults.(unit := unit));
    var c1 := Columns(t, 1).value;
    var c2 := Columns(t, 2).value;
    var re := SpecDataFromTable(st2.defaults, c1).value;
    var im := SpecDataFromTable(st2.defaults, c2).value;
    assert TabulatedApplied(st, "nk", t, meta).1.data.realPart == Some(re);
    assert TabulatedApplied(st, "nk", t, meta).1.data.imagPart == Some(im);
    forall i | 0 <= i < |t.rows|
      ensures Within(t.rows[i][0], re.range[0], re.range[1])
      ensures Within(t.rows[i][0], im.range[0], im.range[1])
    {
      assert c1.rows[i][0] == t.rows[i][0];
      assert c2.rows[i][0] == t.rows[i][0];
    }
  }

  /** Every word converted with `float`, or ValueError. */
  function Floats(words: seq<string>, parse: string -> Option<real>): (r: Result<seq<real>>)
    ensures r.Ok? <==> ParseRow(words, parse).Some?
    ensures r.Err? ==> r.error == ValueError
    ensures r.Ok? ==> r.value == ParseRow(words, parse).value
  {
    match ParseRow(words, parse)
    case None => Err(ValueError)
    case Some(xs) => Ok(xs)
  }

  /** The enumerate loops of `_process_formula_data` that convert words to floats. */
  method ParseFloats(words: seq<string>, parse: string -> Option<real>) returns (r: Result<seq<real>>)
    ensures r == Floats(words, parse)
  {
    var xs: seq<real> := [];
    for j := 0 to |words|
      invariant ParseRow(words[..j], parse) == Some(xs)
    {
      var x := parse(words[j]);
      if x.None? {
        return Err(ValueError);
      }
      assert words[..j + 1] == words[..j] + [words[j]];
      ParseRowSnoc(words[..j], words[j], parse);
      xs := xs + [x.value];
    }
    assert words[..|words|] == words;
    r := Ok(xs);
  }

  function BoundsOf(xs: seq<real>): (r: seq<Bound>)
    ensures |r| == |xs| && forall i :: 0 <= i < |xs| ==> r[i] == Fin(xs[i])
  {
    seq(|xs|, i requires 0 <= i < |xs| => Fin(xs[i]))
  }

  /** The name a formula dataset's identifier gives: a formula number through `method_ids`, a
      model identifier as it stands. */
  function FormulaName(formulaId: Option<int>, identifier: string): (r: Result<string>) {
    if formulaId.Some? then MethodId(formulaId.value) else Ok(identifier)
  }

  /** The model dictionary `_process_formula_data` builds from a dataset, given the word it
      accepts besides 'formula' for a model dataset. */
  function FormulaKw(ctx: Context, st: MaterialState, d: DataDict, modelWord: string): (r: Result<ModelKw>)
    ensures r.Ok? ==> r.value.name.Some? && r.value.spectrumType.Some? && r.value.unit.Some?
    ensures r.Ok? ==> r.value.validRange.Some? && r.value.parameters.Some?
  {
    var dt :- DataTypeOf(d.metaData);
    if !(dt.0 == "formula" || dt.0 == modelWord) then Err(ValueError)
    else
      var formulaId :-
        if dt.0 == "formula" then
          (match ctx.toInt(dt.1) case None => Err(ValueError) case Some(i) => Ok(Some(i)))
        else Ok(None);
      var rangeValue :- MetaValue(d.metaData, "ValidRange");
      var hasRange :- Truthy(rangeValue);
      if !hasRange then Err(NameError)
      else if !rangeValue.Text? then Err(AttributeError)
      else
        var range :- Floats(Words(rangeValue.text), ctx.parse);
        if !d.data.Text? then Err(AttributeError)
        else
          var coefficients :- Floats(Words(d.data.text), ctx.parse);
          var stype :- Chosen(d.metaData, "SpectrumType", st.defaults.spectrumType);
          var unit :- Chosen(d.metaData, "Unit", st.defaults.unit);
          var name :- FormulaName(formulaId, dt.1);
          Ok(ModelKw(Some(name), Some(stype), Some(unit), Some(BoundsOf(range)), Some(coefficients)))
  }

  function FormulaApplied(ctx: Context, st: MaterialState, d: DataDict, modelWord: string)
    : (Result<()>, MaterialState)
  {
    match FormulaKw(ctx, st, d, modelWord)
    case Err(e) => (Err(e), st)
    case Ok(kw) => ModelDictApplied(ctx.env.units, st, kw)
  }

  /** `_process_formula_data` as written: its test compares the data type with 'mode'. */
  function FormulaDataAsWritten(ctx: Context, st: MaterialState, d: DataDict): (Result<()>, MaterialState) {
    FormulaApplied(ctx, st, d, "mode")
  }

  /** `_process_formula_data` accepting the 'model' datasets that `_process_file_data` hands
      to it. */
  function FormulaData(ctx: Context, st: MaterialState, d: DataDict): (Result<()>, MaterialState) {
    FormulaApplied(ctx, st, d, "model")
  }

  /** A dataset is well formed for a model named `name`. */
  predicate ModelDataset(ctx: Context, d: DataDict, name: string) {
    DataTypeOf(d.metaData) == Ok(("model", name)) && FormulaFields(ctx, d)
  }

  /** The fields `_process_formula_data` reads are well formed: a valid range and
      coefficients that parse, a spectrum type and a unit given as text. */
  predicate FormulaFields(ctx: Context, d: DataDict) {
    "ValidRange" in d.metaData && d.metaData["ValidRange"].Text? &&
    d.metaData["ValidRange"].text != "" &&
    ParseRow(Words(d.metaData["ValidRange"].text), ctx.parse).Some? &&
    d.data.Text? && ParseRow(Words(d.data.text), ctx.parse).Some? &&
    "SpectrumType" in d.metaData && d.metaData["SpectrumType"].Text? &&
    "Unit" in d.metaData && d.metaData["Unit"].Text?
  }

  /** As written, every 'model' dataset is refused with ValueError and changes nothing, so
      it stops the dataset loop of `_process_file_data`. */
  lemma AsWrittenRefusesModels(ctx: Context, st: MaterialState, d: DataDict, name: string)
    requires DataTypeOf(d.metaData) == Ok(("model", name))
    ensures FormulaDataAsWritten(ctx, st, d) == (Err(ValueError), st)
    ensures DatasetApplied(ctx, st, d) == (Err(ValueError), st)
  {
  }

  /** Corrected, a well-formed 'model' dataset reaches `_process_model_dict` with its name,
      range, coefficients and frame, and so loads whenever that model accepts its frame. */
  lemma ModelDatasetsLoad(ctx: Context, st: MaterialState, d: DataDict, name: string)
    requires ModelDataset(ctx, d, name)
    ensures var kw := FormulaKw(ctx, st, d, "model");
      kw.Ok? && kw.value.name == Some(name) &&
      kw.value.validRange == Some(BoundsOf(ParseRow(Words(d.metaData["ValidRange"].text), ctx.parse).value)) &&
      kw.value.parameters == Some(ParseRow(Words(d.data.text), ctx.parse).value) &&
      FormulaData(ctx, st, d) == ModelDictApplied(ctx.env.units, st, kw.value)
  {
  }

  /** One dataset of `_process_file_data`. */
  function DatasetApplied(ctx: Context, st: MaterialState, d: DataDict): (Result<()>, MaterialState) {
    match DataTypeOf(d.metaData)
    case Err(e) => (Err(e), st)
    case Ok(dt) =>
      if dt.0 == "tabulated" then
        match ProcessedAsWritten(TabulatedOf(d.data), ctx.parse)
        case Err(e) => (Err(e), st)
        case Ok(t) => TabulatedApplied(st, dt.1, t, d.metaData)
      else if dt.0 == "formula" || dt.0 == "model" then FormulaDataAsWritten(ctx, st, d)
      else (Err(ValueError), st)
  }

  /** A frame value given as text, or the default when it is empty. */
  function OrDefault(given: string, fallback: string): string {
    if given != "" then given else fallback
  }

  /** As written, a well-formed 'formula N' dataset reaches `_process_model_dict` with the
      model `method_ids` names for N, the parsed range and coefficients and its frame; a
      number outside 1 to 9 is a KeyError and an identifier that is no integer a ValueError,
      both changing nothing. */
  lemma FormulaDatasetsLoad(ctx: Context, st: MaterialState, d: DataDict, id: string)
    requires DataTypeOf(d.metaData) == Ok(("formula", id)) && FormulaFields(ctx, d)
    ensures ctx.toInt(id).None? ==> DatasetApplied(ctx, st, d) == (Err(ValueError), st)
    ensures ctx.toInt(id).Some? && !(1 <= ctx.toInt(id).value <= 9) ==>
      DatasetApplied(ctx, st, d) == (Err(KeyError), st)
    ensures ctx.toInt(id).Some? && 1 <= ctx.toInt(id).value <= 9 ==>
      var kw := FormulaKw(ctx, st, d, "mode");
      kw.Ok? && kw.value.name == Some(MethodId(ctx.toInt(id).value).value) &&
      kw.value.validRange == Some(BoundsOf(ParseRow(Words(d.metaData["ValidRange"].text), ctx.parse).value)) &&
      kw.value.parameters == Some(ParseRow(Words(d.data.text), ctx.parse).value) &&
      kw.value.spectrumType == Some(OrDefault(d.metaData["SpectrumType"].text, st.defaults.spectrumType)) &&
      kw.value.unit == Some(OrDefault(d.metaData["Unit"].text, st.defaults.unit)) &&
      DatasetApplied(ctx, st, d) == ModelDictApplied(ctx.env.units, st, kw.value)
  {
  }

  /** A tabulated dataset holding a two-dimensional array with columns is stored as it was
      read, unrepaired; one holding an array of fewer than two dimensions, as `np.loadtxt`
      gives for a file of one row or one column, is an IndexError that changes nothing. */
  lemma TabulatedArraysAsRead(ctx: Context, st: MaterialState, d: DataDict, identifier: string)
    requires DataTypeOf(d.metaData) == Ok(("tabulated", identifier))
    ensures d.data.Array? && d.data.table.cols > 0 ==>
      DatasetApplied(ctx, st, d) == TabulatedApplied(st, identifier, d.data.table, d.metaData)
    ensures d.data.Flat? ==> DatasetApplied(ctx, st, d) == (Err(IndexError), st)
  {
  }

  /** The datasets in order, stopping at the first that fails. */
  function DatasetsApplied(ctx: Context, st: MaterialState, ds: seq<DataDict>): (Result<()>, MaterialState)
    decreases |ds|
  {
    if |ds| == 0 then (Ok(()), st)
    else
      var (r, st1) := DatasetApplied(ctx, st, ds[0]);
      if r.Err? then (r, st1) else DatasetsApplied(ctx, st1, ds[1..])
  }

  /** The meta data `_process_file_data` copies, key by key, up to a missing key. */
  function CopiedMeta(src: map<string, Value>, keys: seq<string>): (r: (Result<()>, map<string, Value>))
    ensures r.0.Ok? <==> forall i :: 0 <= i < |keys| ==> keys[i] in src
    ensures r.0.Err? ==> r.0.error == KeyError
    ensures r.0.Ok? ==> r.1.Keys == set i | 0 <= i < |keys| :: keys[i]
    ensures forall k :: k in r.1 ==> k in src && r.1[k] == src[k]
    decreases |keys|
  {
    if |keys| == 0 then (Ok(()), map[])
    else if keys[0] !in src then (Err(KeyError), map[])
    else
      var (r, m) := CopiedMeta(src, keys[1..]);
      assert forall i :: 1 <= i < |keys| ==> keys[i] == keys[1..][i - 1];
      assert (set i | 0 <= i < |keys| :: keys[i]) == {keys[0]} + set i | 0 <= i < |keys[1..]| :: keys[1..][i];
      (r, m[keys[0] := src[keys[0]]])
  }

  /** `_process_file_data`: the record is kept, its meta data copied without the alias, then the
      datasets are applied in order. */
  function FileDataApplied(ctx: Context, st: MaterialState, f: FileDict): (Result<()>, MaterialState) {
    var (copied, meta) := CopiedMeta(f.metaData, CopiedMetaKeys);
    var st1 := st.(fileData := Some(f), metaData := meta);
    if copied.Err? then (copied, st1) else DatasetsApplied(ctx, st1, f.datasets)
  }

  /** A record a Reader produced has every file key, so the material's meta data becomes
      exactly the five copied keys with the record's values. */
  lemma FileMetaCopied(ctx: Context, st: MaterialState, f: FileDict)
    requires FileDictShaped(f)
    ensures var st1 := FileDataApplied(ctx, st, f).1;
      st1.metaData.Keys == set i | 0 <= i < |CopiedMetaKeys| :: CopiedMetaKeys[i]
    ensures var st1 := FileDataApplied(ctx, st, f).1;
      forall k :: k in st1.metaData ==> st1.metaData[k] == f.metaData[k]
  {
    var (copied, meta) := CopiedMeta(f.metaData, CopiedMetaKeys);
    assert forall i :: 0 <= i < |CopiedMetaKeys| ==> CopiedMetaKeys[i] in FileMetaKeys;
    DatasetsKeepMeta(ctx, st.(fileData := Some(f), metaData := meta), f.datasets);
  }

  /** Datasets change the parts and the defaults, never the meta data. */
  lemma {:induction false} DatasetsKeepMeta(ctx: Context, st: MaterialState, ds: seq<DataDict>)
    ensures DatasetsApplied(ctx, st, ds).1.metaData == st.metaData
    ensures DatasetsApplied(ctx, st, ds).1.fileData == st.fileData
    decreases |ds|
  {
    if |ds| > 0 {
      var (r, st1) := DatasetApplied(ctx, st, ds[0]);
      DatasetKeepsMeta(ctx, st, ds[0]);
      if r.Ok? {
        DatasetsKeepMeta(ctx, st1, ds[1..]);
      }
    }
  }

  lemma DatasetKeepsMeta(ctx: Context, st: MaterialState, d: DataDict)
    ensures DatasetApplied(ctx, st, d).1.metaData == st.metaData
    ensures DatasetApplied(ctx, st, d).1.fileData == st.fileData
  {
    match DataTypeOf(d.metaData)
    case Err(_) =>
    case Ok(dt) =>
      if dt.0 == "tabulated" {
        match ProcessedAsWritten(TabulatedOf(d.data), ctx.parse)
        case Err(_) =>
        case Ok(t) => TabulatedKeepsMeta(st, dt.1, t, d.metaData);
      } else if dt.0 == "formula" || dt.0 == "model" {
        FormulaKeepsMeta(ctx, st, d, "mode");
      }
  }

  lemma TabulatedKeepsMeta(st: MaterialState, identifier: string, t: Table, meta: map<string, Value>)
    ensures TabulatedApplied(st, identifier, t, meta).1.metaData == st.metaData
    ensures TabulatedApplied(st, identifier, t, meta).1.fileData == st.fileData
  {
  }

  lemma FormulaKeepsMeta(ctx: Context, st: MaterialState, d: DataDict, modelWord: string)
    ensures FormulaApplied(ctx, st, d, modelWord).1.metaData == st.metaData
    ensures FormulaApplied(ctx, st, d, modelWord).1.fileData == st.fileData
  {
    match FormulaKw(ctx, st, d, modelWord)
    case Err(_) =>
    case Ok(kw) => ModelDictOutcome(ctx.env.units, st, kw);
  }

  // ---------------------------------------------------------------------------------------
  // Evaluation

  /** The evaluation `get_nk_data` and `get_permittivity` share: the quantity name is checked,
      then the real and imaginary parts are evaluated in turn on the same Spectrum and combined
      as `real + 1j * imag`, or the complex part is evaluated. */
  function HeldValue(env: Env, d: Slots, s: Sample): (Result<Payload<Complex>>, Sample) {
    if !(d.name == "nk" || d.name == "eps") then (Err(ValueError), s)
    else if d.complexPart.Some? then EvaluateOn(env, d.complexPart.value, s)
    else if d.realPart.None? then (Err(AttributeError), s)
    else
      var (re, s1) := EvaluateOn(env, d.realPart.value, s);
      if re.Err? then (re, s1)
      else if d.imagPart.None? then (Err(AttributeError), s1)
      else
        var (im, s2) := EvaluateOn(env, d.imagPart.value, s1);
        if im.Err? then (im, s2)
        else (Zip(re.value, im.value, WithImaginary), s2)
  }

  /** `get_nk_data`: a permittivity is converted with the complex square root. */
  function NkOn(ctx: Context, d: Slots, s: Sample): (Result<Payload<Complex>>, Sample) {
    var (v, s1) := HeldValue(ctx.env, d, s);
    if v.Ok? && d.name == "eps" then (Ok(Lift(v.value, ctx.csqrt)), s1) else (v, s1)
  }

  /** `get_permittivity`: a refractive index is squared. */
  function PermittivityOn(ctx: Context, d: Slots, s: Sample): (Result<Payload<Complex>>, Sample) {
    var (v, s1) := HeldValue(ctx.env, d, s);
    if v.Ok? && d.name == "nk" then (Ok(Lift(v.value, Square)), s1) else (v, s1)
  }

  /** Where the complex square root inverts squaring, the permittivity is the square of the
      refractive index, whichever of the two the material holds. */
  lemma NkPermittivityAgree(ctx: Context, d: Slots, s: Sample)
    requires forall z :: Square(ctx.csqrt(z)) == z
    ensures NkOn(ctx, d, s).1 == PermittivityOn(ctx, d, s).1
    ensures NkOn(ctx, d, s).0.Ok? <==> PermittivityOn(ctx, d, s).0.Ok?
    ensures NkOn(ctx, d, s).0.Ok? ==>
      PermittivityOn(ctx, d, s).0.value == Lift(NkOn(ctx, d, s).0.value, Square)
  {
    var (v, s1) := HeldValue(ctx.env, d, s);
    if v.Ok? && d.name == "eps" {
      var nk := Lift(v.value, ctx.csqrt);
      match v.value
      case Scalar(x) =>
      case Vector(xs) =>
        assert Lift(nk, Square).xs == xs;
    }
  }

  /** A constant part evaluates to its value at every point of a spectrum in its range. */
  lemma ConstantEverywhere(env: Env, c: real, s: Sample)
    requires InRange(env.units, [Fin(0.0), PosInf], Frame("wavelength", "m"), s)
    ensures var (v, s1) := EvaluateOn(env, DefaultConstant(c), s);
      s1 == s && v == Ok(Lift(s.values, ConstantOf(c)))
  {
  }

  /** Two constant parts evaluate to `a + 1j * b` at every point of a spectrum in their range. */
  lemma ConstantPartsEverywhere(env: Env, name: string, a: real, b: real, s: Sample)
    requires name == "nk" || name == "eps"
    requires InRange(env.units, [Fin(0.0), PosInf], Frame("wavelength", "m"), s)
    ensures var (v, s1) := HeldValue(env, Slots(name, Some(DefaultConstant(a)), Some(DefaultConstant(b)), None), s);
      s1 == s && v.Ok? && SameShape(v.value, s.values) &&
      forall i :: 0 <= i < Size(v.value) ==> At(v.value, i) == Complex(a, b)
  {
    ConstantEverywhere(env, a, s);
    ConstantEverywhere(env, b, s);
    var re := Lift(s.values, ConstantOf(a));
    var im := Lift(s.values, ConstantOf(b));
    var v := Zip(re, im, WithImaginary);
    assert HeldValue(env, Slots(name, Some(DefaultConstant(a)), Some(DefaultConstant(b)), None), s) == (v, s);
    forall i | 0 <= i < Size(v.value)
      ensures At(v.value, i) == Complex(a, b)
    {
      ZipAt(re, im, WithImaginary, i);
      LiftAt(s.values, ConstantOf(a), Pick(re, i));
      LiftAt(s.values, ConstantOf(b), Pick(im, i));
    }
  }

  /** A material built from a fixed value evaluates to that value at every point of a spectrum
      within the constant's range (0, inf) metres, with the spectrum's shape. */
  lemma FixedValueEvaluates(env: Env, p: Inputs, s: Sample)
    requires FixedValueSlots(Slots("", None, None, None), p).Ok?
    requires InRange(env.units, [Fin(0.0), PosInf], Frame("wavelength", "m"), s)
    ensures var d := Completed(FixedValueSlots(Slots("", None, None, None), p).value);
      var (v, s1) := HeldValue(env, d, s);
      s1 == s && v.Ok? && SameShape(v.value, s.values) &&
      forall i :: 0 <= i < Size(v.value) ==> At(v.value, i) == FixedQuantity(p)
  {
    var d := Completed(FixedValueSlots(Slots("", None, None, None), p).value);
    var z := FixedQuantity(p);
    assert d == Slots(d.name, Some(DefaultConstant(z.re)), Some(DefaultConstant(z.im)), None);
    ConstantPartsEverywhere(env, d.name, z.re, z.im, s);
  }

  /** With the imaginary part removed, the value held is the real part's value. */
  lemma RemovedAbsorptionKeepsReal(env: Env, d: Slots, s: Sample)
    requires d.complexPart.None? && d.realPart.Some? && (d.name == "nk" || d.name == "eps")
    requires EvaluateOn(env, d.realPart.value, s).0.Ok?
    requires InRange(env.units, [Fin(0.0), PosInf], Frame("wavelength", "m"), EvaluateOn(env, d.realPart.value, s).1)
    ensures var re := EvaluateOn(env, d.realPart.value, s);
      var (v, s2) := HeldValue(env, d.(imagPart := Some(Zero())), s);
      s2 == re.1 &&
      (v.Ok? <==> Broadcastable(re.0.value, s2.values)) &&
      (v.Ok? ==> forall i :: 0 <= i < Size(v.value) ==>
        Pick(re.0.value, i) < Size(re.0.value) && At(v.value, i) == At(re.0.value, Pick(re.0.value, i)))
  {
    var (re, s1) := EvaluateOn(env, d.realPart.value, s);
    ConstantEverywhere(env, 0.0, s1);
    var im := Lift(s1.values, ConstantOf(0.0));
    assert HeldValue(env, d.(imagPart := Some(Zero())), s) == (Zip(re.value, im, WithImaginary), s1);
    ZeroLossKeeps(re.value, s1.values);
  }

  /** Adding `1j * 0` elementwise keeps every value. */
  lemma ZeroLossKeeps(p: Payload<Complex>, values: Payload<real>)
    ensures var v := Zip(p, Lift(values, ConstantOf(0.0)), WithImaginary);
      (v.Ok? <==> Broadcastable(p, values)) &&
      (v.Ok? ==> forall i :: 0 <= i < Size(v.value) ==> Pick(p, i) < Size(p) && At(v.value, i) == At(p, Pick(p, i)))
  {
    var im := Lift(values, ConstantOf(0.0));
    assert SameShape(values, im);
    var v := Zip(p, im, WithImaginary);
    if v.Ok? {
      forall i | 0 <= i < Size(v.value)
        ensures Pick(p, i) < Size(p) && At(v.value, i) == At(p, Pick(p, i))
      {
        ZeroLossAt(p, values, i);
      }
    }
  }

  lemma ZeroLossAt(p: Payload<Complex>, values: Payload<real>, i: nat)
    requires Broadcastable(p, Lift(values, ConstantOf(0.0)))
    requires i < BroadcastSize(p, Lift(values, ConstantOf(0.0)))
    ensures Pick(p, i) < Size(p)
    ensures At(Zip(p, Lift(values, ConstantOf(0.0)), WithImaginary).value, i) == At(p, Pick(p, i))
  {
    var im := Lift(values, ConstantOf(0.0));
    ZipAt(p, im, WithImaginary, i);
    LiftAt(values, ConstantOf(0.0), Pick(im, i));
    PlusZeroLoss(At(p, Pick(p, i)));
  }

  lemma PlusZeroLoss(a: Complex)
    ensures WithImaginary(a, FromReal(0.0)) == a
  {
  }

  // ---------------------------------------------------------------------------------------
  // Valid range

  /** `get_maximum_valid_range`: the intersection of the ranges of the real and imaginary
      parts, or the range of the complex part, by the raw values each range holds. */
  function MaximumValidRange(d: Slots): (r: Result<(Bound, Bound)>)
    ensures !(d.name == "nk" || d.name == "eps") ==> r == Err(RuntimeError)
  {
    if !(d.name == "nk" || d.name == "eps") then Err(RuntimeError)
    else if d.complexPart.None? then
      if d.realPart.None? || d.imagPart.None? then Err(AttributeError)
      else if |d.realPart.value.range| == 0 || |d.imagPart.value.range| == 0 then Err(ValueError)
      else
        var re, im := d.realPart.value.range, d.imagPart.value.range;
        Ok((Max2(MinOf(re), MinOf(im)), Min2(MaxOf(re), MaxOf(im))))
    else if |d.complexPart.value.range| == 0 then Err(ValueError)
    else Ok((MinOf(d.complexPart.value.range), MaxOf(d.complexPart.value.range)))
  }

  /** A value lies in the maximum valid range exactly when it lies in the ranges of both the
      real and the imaginary part. */
  lemma MaximumValidRangeIntersects(d: Slots, x: real)
    requires MaximumValidRange(d).Ok? && d.complexPart.None?
    ensures var (lo, hi) := MaximumValidRange(d).value;
      var re, im := d.realPart.value.range, d.imagPart.value.range;
      Within(x, lo, hi) <==> Within(x, MinOf(re), MaxOf(re)) && Within(x, MinOf(im), MaxOf(im))
  {
    var re, im := d.realPart.value.range, d.imagPart.value.range;
    LeTotal(MinOf(re), MinOf(im));
    LeTotal(MaxOf(re), MaxOf(im));
    BoundsTransitive();
  }

  lemma BoundsTransitive()
    ensures forall a, b, c :: Le(a, b) && Le(b, c) ==> Le(a, c)
  {
  }

  // ---------------------------------------------------------------------------------------
  // Extrapolation

  /** One part of `extrapolate`: constants are kept, other evaluators are wrapped in an
      Extrapolation over the spectrum, which that converts in place. */
  function ExtrapolatedPart(env: Env, part: Option<Evaluator>, s: Sample, order: nat)
    : (Result<Option<Evaluator>>, Sample)
  {
    match part
    case None => (Err(AttributeError), s)
    case Some(e) =>
      if e.Constant? then (Ok(part), s)
      else
        var (r, s1) := Extrapolated(env, e, s, order);
        (if r.Err? then Err(r.error) else Ok(Some(r.value)), s1)
  }

  /** `extrapolate(new_spectrum, spline_order)`: the real part, then the imaginary part; a
      material with a complex part is refused. */
  function Extrapolating(env: Env, d: Slots, s: Sample, order: nat): (Result<()>, Slots, Sample) {
    if d.complexPart.Some? then (Err(NotImplementedError), d, s)
    else
      var (re, s1) := ExtrapolatedPart(env, d.realPart, s, order);
      if re.Err? then (Err(re.error), d, s1)
      else
        var d1 := d.(realPart := re.value);
        var (im, s2) := ExtrapolatedPart(env, d1.imagPart, s1, order);
        if im.Err? then (Err(im.error), d1, s2)
        else (Ok(()), d1.(imagPart := im.value), s2)
  }

  /** Extrapolating widens the valid range of a tabulated or model real part with an ordered
      two-value range; the quantity name and the complex part do not change. */
  lemma ExtrapolateWidens(env: Env, d: Slots, s: Sample, order: nat)
    requires Extrapolating(env, d, s, order).0.Ok?
    requires d.realPart.Some? && !d.realPart.value.Constant?
    requires |d.realPart.value.range| == 2 && Le(d.realPart.value.range[0], d.realPart.value.range[1])
    ensures var d1 := Extrapolating(env, d, s, order).1;
      d1.name == d.name && d1.complexPart == d.complexPart && d1.realPart.Some? &&
      d1.realPart.value.Extrapolation? && d1.realPart.value.base == d.realPart.value &&
      Le(d1.realPart.value.range[0], d.realPart.value.range[0]) &&
      Le(d.realPart.value.range[1], d1.realPart.value.range[1])
  {
    ExtrapolationCovers(env, d.realPart.value, s, order);
  }

  // ---------------------------------------------------------------------------------------
  // Construction

  /** `MaterialData(**kwargs)`: the arguments are parsed, the one input given is processed, and
      missing parts are completed. `src` is what the file holds when a file path is given. */
  function Initialised(ctx: Context, args: seq<(Keyword, PyValue)>, src: FileSource): Result<MaterialState>
    requires FileLines(src.lines)
  {
    var p :- ParsedArgs(args);
    var st0 := Initial(Frame(p.spectrumType, p.unit));
    var (done, st1) :=
      if p.filePath.Some? then
        var read := ReadFileRecord(DefaultFileDict(p.filePath.value), Splitext(p.filePath.value).1, src).0;
        if read.Err? then (Err(read.error), st0) else FileDataApplied(ctx, st0, read.value)
      else if p.modelKw.Some? then ModelDictApplied(ctx.env.units, st0, p.modelKw.value)
      else FixedValueApplied(st0, p);
    if done.Err? then Err(done.error) else Ok(st1.(data := Completed(st1.data)))
  }

  /** A constructed material has real and imaginary parts; built from a fixed value or a model
      it holds a refractive index or a permittivity, so its range and values can be asked for. */
  lemma InitialisedHoldsQuantity(ctx: Context, args: seq<(Keyword, PyValue)>, src: FileSource)
    requires FileLines(src.lines)
    requires Initialised(ctx, args, src).Ok?
    ensures Initialised(ctx, args, src).value.data.realPart.Some?
    ensures Initialised(ctx, args, src).value.data.imagPart.Some?
    ensures ParsedArgs(args).value.filePath.None? ==>
      var name := Initialised(ctx, args, src).value.data.name;
      name == "nk" || name == "eps"
  {
    var p := ParsedArgs(args).value;
    if p.filePath.None? && p.modelKw.Some? {
      ModelDictOutcome(ctx.env.units, Initial(Frame(p.spectrumType, p.unit)), p.modelKw.value);
    }
  }

  /** A part of `extrapolate`'s loop over 'real' and 'imag'. */
  method ExtrapolatePart(env: Env, part: Option<Evaluator>, spectrum: Spectrum, order: nat)
    returns (r: Result<Option<Evaluator>>)
    modifies spectrum
    ensures (r, spectrum.State()) == ExtrapolatedPart(env, part, old(spectrum.State()), order)
  {
    if part.None? {
      return Err(AttributeError);
    }
    if part.value.Constant? {
      return Ok(part);
    }
    var e :- NewExtrapolation(env, part.value, spectrum, order);
    r := Ok(Some(e));
  }

  /** `MaterialData`: its attributes are the fields of `MaterialState`. */
  class MaterialData {
    var metaData: map<string, Value>
    var data: Slots
    var defaults: Frame
    var fileData: Option<FileDict>

    function State(): MaterialState
      reads this
    {
      MaterialState(metaData, data, defaults, fileData)
    }

    /** The attributes as `__init__` sets them before it processes its input. */
    constructor (defaults: Frame)
      ensures State() == Initial(defaults)
    {
      metaData := Blanks(InitialMetaKeys);
      data := Slots("", None, None, None);
      this.defaults := defaults;
      fileData := None;
    }

    /** `__init__`, returning the new object or the exception it raises. */
    static method New(ctx: Context, args: seq<(Keyword, PyValue)>, src: FileSource)
      returns (r: Result<MaterialData>)
      requires FileLines(src.lines)
      ensures r.Ok? <==> Initialised(ctx, args, src).Ok?
      ensures r.Err? ==> r.error == Initialised(ctx, args, src).error
      ensures r.Ok? ==> fresh(r.value) && r.value.State() == Initialised(ctx, args, src).value
    {
      var p :- ParseArgs(args);
      var m := new MaterialData(Frame(p.spectrumType, p.unit));
      var done: Result<()>;
      if p.filePath.Some? {
        var reader := new RefractiveIndexIo.Reader(p.filePath.value);
        var f :- reader.ReadFile(src);
        done := m.ProcessFileData(ctx, f);
      } else if p.modelKw.Some? {
        done := m.ProcessModelDict(ctx.env.units, p.modelKw.value);
      } else {
        done := m.ProcessFixedValue(p);
      }
      if done.Err? {
        return Err(done.error);
      }
      m.CompletePartialData();
      r := Ok(m);
    }

    /** `_complete_partial_data`. */
    method CompletePartialData()
      modifies this
      ensures State() == old(State()).(data := Completed(old(data)))
    {
      if data.realPart.None? {
        data := data.(realPart := Some(Zero()));
      }
      if data.imagPart.None? {
        data := data.(imagPart := Some(Zero()));
      }
    }

    /** `remove_absorption`: the imaginary part becomes a constant zero. */
    method RemoveAbsorption()
      modifies this
      ensures State() == old(State()).(data := old(data).(imagPart := Some(Zero())))
    {
      data := data.(imagPart := Some(Zero()));
    }

    /** `extrapolate(new_spectrum, spline_order)`. */
    method Extrapolate(env: Env, newSpectrum: Spectrum, order: nat) returns (r: Result<()>)
      modifies this, newSpectrum
      ensures (r, data, newSpectrum.State()) == Extrapolating(env, old(data), old(newSpectrum.State()), order)
      ensures metaData == old(metaData) && defaults == old(defaults) && fileData == old(fileData)
    {
      if data.complexPart.Some? {
        return Err(NotImplementedError);
      }
      var re :- ExtrapolatePart(env, data.realPart, newSpectrum, order);
      data := data.(realPart := re);
      var im :- ExtrapolatePart(env, data.imagPart, newSpectrum, order);
      data := data.(imagPart := im);
      r := Ok(());
    }

    /** `_process_fixed_value`. */
    method ProcessFixedValue(p: Inputs) returns (r: Result<()>)
      modifies this
      ensures (r, State()) == FixedValueApplied(old(State()), p)
    {
      if p.fixedN.Some? {
        data := data.(name := "nk", realPart := Some(DefaultConstant(p.fixedN.value)));
      } else if p.fixedNk.Some? {
        data := data.(name := "nk", realPart := Some(DefaultConstant(p.fixedNk.value.re)));
        data := data.(imagPart := Some(DefaultConstant(p.fixedNk.value.im)));
      } else if p.fixedEpsR.Some? {
        data := data.(name := "eps", realPart := Some(DefaultConstant(p.fixedEpsR.value)));
      } else if p.fixedEps.Some? {
        data := data.(name := "eps", realPart := Some(DefaultConstant(p.fixedEps.value.re)));
        data := data.(imagPart := Some(DefaultConstant(p.fixedEps.value.im)));
      } else {
        return Err(RuntimeError);
      }
      r := Ok(());
    }

    /** `_process_model_dict`. */
    method ProcessModelDict(u: Units, kw: ModelKw) returns (r: Result<()>)
      modifies this
      ensures (r, State()) == ModelDictApplied(u, old(State()), kw)
    {
      if kw.name.None? {
        return Err(KeyError);
      }
      var kind := ModelNamed(kw.name.value);
      if kind.None? {
        return Err(NameError);
      }
      if kw.spectrumType.Some? {
        defaults := defaults.(spectrumType := kw.spectrumType.value);
      }
      if kw.unit.Some? {
        defaults := defaults.(unit := kw.unit.value);
      }
      if kw.parameters.None? || kw.validRange.None? {
        return Err(KeyError);
      }
      var frame := Frame(OrElse(kw.spectrumType, "wavelength"), OrElse(kw.unit, "m"));
      var model :- NewModel(u, kind.value, kw.parameters.value, kw.validRange.value, frame);
      var target :- OutputTarget(Required(kind.value).output);
      data := Put(data, target.1, model).(name := target.0);
      r := Ok(());
    }

    /** `_process_file_data`. */
    method ProcessFileData(ctx: Context, f: FileDict) returns (r: Result<()>)
      modifies this
      ensures (r, State()) == FileDataApplied(ctx, old(State()), f)
    {
      var copied := CopiedMeta(f.metaData, CopiedMetaKeys);
      fileData := Some(f);
      metaData := copied.1;
      if copied.0.Err? {
        return copied.0;
      }
      ghost var start := State();
      var datasets := f.datasets;
      for k := 0 to |datasets|
        invariant DatasetsApplied(ctx, State(), datasets[k..]) == DatasetsApplied(ctx, start, datasets)
      {
        assert datasets[k..][0] == datasets[k] && datasets[k..][1..] == datasets[k + 1..];
        r := ProcessDataset(ctx, datasets[k]);
        if r.Err? {
          return;
        }
      }
      r := Ok(());
    }

    /** One pass of the dataset loop of `_process_file_data`. */
    method ProcessDataset(ctx: Context, d: DataDict) returns (r: Result<()>)
      modifies this
      ensures (r, State()) == DatasetApplied(ctx, old(State()), d)
    {
      var dt :- DataTypeOf(d.metaData);
      if dt.0 == "tabulated" {
        var t :- ProcessTabulatedData(TabulatedOf(d.data), ctx.parse);
        r := ApplyTable(dt.1, t, d.metaData);
      } else if dt.0 == "formula" || dt.0 == "model" {
        r := ProcessFormulaData(ctx, d);
      } else {
        r := Err(ValueError);
      }
    }

    /** The tabulated branch of `_process_file_data`: defaults first, then the parts. */
    method ApplyTable(identifier: string, t: Table, meta: map<string, Value>) returns (r: Result<()>)
      modifies this
      ensures (r, State()) == TabulatedApplied(old(State()), identifier, t, meta)
    {
      var stype :- Chosen(meta, "SpectrumType", defaults.spectrumType);
      defaults := defaults.(spectrumType := stype);
      var unit :- Chosen(meta, "Unit", defaults.unit);
      defaults := defaults.(unit := unit);
      if identifier == "nk" {
        data := data.(name := "nk");
        var re :- ColumnData(defaults, t, 1);
        data := data.(realPart := Some(re));
        var im :- ColumnData(defaults, t, 2);
        data := data.(imagPart := Some(im));
      } else if identifier == "n" {
        data := data.(name := "nk");
        var re :- SpecDataFromTable(defaults, t);
        data := data.(realPart := Some(re));
      } else if identifier == "k" {
        data := data.(name := "nk");
        var im :- SpecDataFromTable(defaults, t);
        data := data.(imagPart := Some(im));
      }
      r := Ok(());
    }

    /** `_process_formula_data` as written, whose test admits 'formula' and 'mode' datasets. */
    method ProcessFormulaData(ctx: Context, d: DataDict) returns (r: Result<()>)
      modifies this
      ensures (r, State()) == FormulaDataAsWritten(ctx, old(State()), d)
    {
      var dt :- DataTypeOf(d.metaData);
      if !(dt.0 == "formula" || dt.0 == "mode") {
        return Err(ValueError);
      }
      var formulaId: Option<int> := None;
      if dt.0 == "formula" {
        var id := ctx.toInt(dt.1);
        if id.None? {
          return Err(ValueError);
        }
        formulaId := Some(id.value);
      }
      var rangeValue :- MetaValue(d.metaData, "ValidRange");
      var hasRange :- Truthy(rangeValue);
      if !hasRange {
        return Err(NameError);
      }
      if !rangeValue.Text? {
        return Err(AttributeError);
      }
      var range :- ParseFloats(Words(rangeValue.text), ctx.parse);
      if !d.data.Text? {
        return Err(AttributeError);
      }
      var coefficients :- ParseFloats(Words(d.data.text), ctx.parse);
      var stype :- Chosen(d.metaData, "SpectrumType", defaults.spectrumType);
      var unit :- Chosen(d.metaData, "Unit", defaults.unit);
      var name :- FormulaName(formulaId, dt.1);
      r := ProcessModelDict(ctx.env.units,
        ModelKw(Some(name), Some(stype), Some(unit), Some(BoundsOf(range)), Some(coefficients)));
    }

    /** The evaluation shared by `get_nk_data` and `get_permittivity`. */
    method EvaluateHeld(env: Env, spectrum: Spectrum) returns (r: Result<Payload<Complex>>)
      modifies spectrum
      ensures (r, spectrum.State()) == HeldValue(env, data, old(spectrum.State()))
    {
      if !(data.name == "nk" || data.name == "eps") {
        return Err(ValueError);
      }
      if data.complexPart.None? {
        if data.realPart.None? {
          return Err(AttributeError);
        }
        var re :- Evaluate(env, data.realPart.value, spectrum);
        if data.imagPart.None? {
          return Err(AttributeError);
        }
        var im :- Evaluate(env, data.imagPart.value, spectrum);
        r := Zip(re, im, WithImaginary);
      } else {
        r := Evaluate(env, data.complexPart.value, spectrum);
      }
    }

    /** `get_nk_data` on a Spectrum object. */
    method GetNkData(ctx: Context, spectrum: Spectrum) returns (r: Result<Payload<Complex>>)
      modifies spectrum
      ensures (r, spectrum.State()) == NkOn(ctx, data, old(spectrum.State()))
    {
      var v :- EvaluateHeld(ctx.env, spectrum);
      r := if data.name == "eps" then Ok(Lift(v, ctx.csqrt)) else Ok(v);
    }

    /** `get_permittivity` on a Spectrum object. */
    method GetPermittivity(ctx: Context, spectrum: Spectrum) returns (r: Result<Payload<Complex>>)
      modifies spectrum
      ensures (r, spectrum.State()) == PermittivityOn(ctx, data, old(spectrum.State()))
    {
      var v :- EvaluateHeld(ctx.env, spectrum);
      r := if data.name == "nk" then Ok(Lift(v, Square)) else Ok(v);
    }
  }
}
