/** Keyword arguments of `MaterialData(**kwargs)` in src/refractive_index_database/material_data.py:
    exactly one of six exclusive inputs must be given, and each argument group has its Python
    types. */
module MaterialArgs {
  import opened Outcomes
  import opened Numbers

  /** A model description as `_process_model_dict` reads it; absent keys are None. */
  datatype ModelKw = ModelKw(
    name: Option<string>,
    spectrumType: Option<string>,
    unit: Option<string>,
    validRange: Option<seq<Bound>>,
    parameters: Option<seq<real>>)

  /** A keyword argument, by its Python type: `PyFloat` stands for float and np.double,
      `PyComplex` for complex and np.cdouble. */
  datatype PyValue =
    | PyNone
    | PyStr(s: string)
    | PyFloat(x: real)
    | PyInt(i: int)
    | PyComplex(z: Complex)
    | PyDict(model: ModelKw)
    | PyOther

  /** The keyword names `MaterialData` reads; any other keyword is accepted and ignored. */
  datatype Keyword =
    | FilePathArg | FixedNArg | FixedNkArg | FixedEpsRArg | FixedEpsArg | ModelKwArg
    | SpectrumTypeArg | UnitArg
    | OtherArg(name: string)

  /** The six mutually exclusive inputs. */
  predicate IsExclusive(k: Keyword) {
    k.FilePathArg? || k.FixedNArg? || k.FixedNkArg? || k.FixedEpsRArg? || k.FixedEpsArg? || k.ModelKwArg?
  }

  /** Keyword arguments in call order; Python admits each name once. */
  predicate DistinctNames(args: seq<(Keyword, PyValue)>) {
    forall i, j :: 0 <= i < j < |args| ==> args[i].0 != args[j].0
  }

  /** An exclusive input that is given, i.e. not None. */
  predicate Given(arg: (Keyword, PyValue)) {
    IsExclusive(arg.0) && arg.1 != PyNone
  }

  /** The count `_parse_args` keeps of exclusive inputs that are given. */
  function ExclusiveCount(args: seq<(Keyword, PyValue)>): nat {
    if |args| == 0 then 0
    else ExclusiveCount(args[..|args| - 1]) + (if Given(args[|args| - 1]) then 1 else 0)
  }

  lemma {:induction false} ExclusiveCountZero(args: seq<(Keyword, PyValue)>)
    ensures ExclusiveCount(args) == 0 <==> forall i :: 0 <= i < |args| ==> !Given(args[i])
  {
    if |args| > 0 {
      var init := args[..|args| - 1];
      ExclusiveCountZero(init);
      assert forall i :: 0 <= i < |init| ==> init[i] == args[i];
    }
  }

  /** Argument `i` is the one exclusive input given. */
  predicate OnlyGiven(args: seq<(Keyword, PyValue)>, i: int) {
    0 <= i < |args| && Given(args[i]) && forall j :: 0 <= j < |args| && j != i ==> !Given(args[j])
  }

  /** The count is one exactly when one exclusive input is given and no other. */
  lemma {:induction false} ExclusiveCountOne(args: seq<(Keyword, PyValue)>)
    ensures ExclusiveCount(args) == 1 <==> exists i :: OnlyGiven(args, i)
  {
    if |args| > 0 {
      var n := |args| - 1;
      var init := args[..n];
      ExclusiveCountOne(init);
      ExclusiveCountZero(init);
      assert forall i :: 0 <= i < n ==> init[i] == args[i];
      if Given(args[n]) {
        if ExclusiveCount(args) == 1 {
          assert OnlyGiven(args, n);
        } else {
          assert exists i :: 0 <= i < n && Given(args[i]);
          forall i | OnlyGiven(args, i) ensures false {
          }
        }
      } else {
        if ExclusiveCount(args) == 1 {
          var i :| OnlyGiven(init, i);
          assert OnlyGiven(args, i);
        }
        forall i | OnlyGiven(args, i) ensures OnlyGiven(init, i) {
          assert i < n;
        }
      }
    }
  }

  /** `inputs[arg] = args[arg]` for every argument. */
  function InputsOf(args: seq<(Keyword, PyValue)>): (m: map<Keyword, PyValue>)
    ensures m.Keys == set i | 0 <= i < |args| :: args[i].0
  {
    if |args| == 0 then map[]
    else
      var init := args[..|args| - 1];
      assert forall i :: 0 <= i < |init| ==> init[i] == args[i];
      InputsOf(init)[args[|args| - 1].0 := args[|args| - 1].1]
  }

  /** The argument groups `_parse_args` checks, with the types each admits. */
  datatype TypeGroup = StrArgs | FloatArgs | ComplexArgs | DictArgs

  predicate Admits(g: TypeGroup, v: PyValue) {
    match g
    case StrArgs => v.PyStr?
    case FloatArgs => v.PyFloat?
    case ComplexArgs => v.PyComplex?
    case DictArgs => v.PyDict?
  }

  /** `_check_type`: every named argument that is given has an admitted type (TypeError
      otherwise), and every named argument that is missing is added as None. */
  function CheckedTypes(inputs: map<Keyword, PyValue>, names: seq<Keyword>, g: TypeGroup)
    : (r: Result<map<Keyword, PyValue>>)
    ensures r.Ok? <==> forall k :: k in names && k in inputs && inputs[k] != PyNone ==> Admits(g, inputs[k])
    ensures r.Err? ==> r.error == TypeError
    ensures r.Ok? ==> forall k :: k in r.value <==> k in inputs || k in names
    ensures r.Ok? ==> forall k :: k in r.value ==> r.value[k] == if k in inputs then inputs[k] else PyNone
    decreases |names|
  {
    if |names| == 0 then Ok(inputs)
    else
      var arg := names[0];
      var next :-
        if arg in inputs && inputs[arg] != PyNone then
          (if Admits(g, inputs[arg]) then Ok(inputs) else Err(TypeError))
        else Ok(inputs[arg := PyNone]);
      assert forall k :: k in names <==> k == arg || k in names[1..];
      CheckedTypes(next, names[1..], g)
  }

  const StrNames: seq<Keyword> := [FilePathArg, SpectrumTypeArg, UnitArg]
  const FloatNames: seq<Keyword> := [FixedNArg, FixedEpsRArg]
  const ComplexNames: seq<Keyword> := [FixedNkArg, FixedEpsArg]
  const DictNames: seq<Keyword> := [ModelKwArg]

  /** `_check_type` on the arguments, one loop over the names. */
  method CheckType(args: map<Keyword, PyValue>, names: seq<Keyword>, g: TypeGroup)
    returns (r: Result<map<Keyword, PyValue>>)
    ensures r == CheckedTypes(args, names, g)
  {
    var inputs := args;
    for k := 0 to |names|
      invariant CheckedTypes(inputs, names[k..], g) == CheckedTypes(args, names, g)
    {
      assert names[k..][1..] == names[k + 1..];
      var arg := names[k];
      if arg in inputs && inputs[arg] != PyNone {
        if !Admits(g, inputs[arg]) {
          return Err(TypeError);
        }
      } else {
        inputs := inputs[arg := PyNone];
      }
    }
    r := Ok(inputs);
  }

  /** The parsed inputs: the exclusive inputs as given (None when absent) and the default
      spectrum type and unit. */
  datatype Inputs = Inputs(
    filePath: Option<string>,
    fixedN: Option<real>,
    fixedNk: Option<Complex>,
    fixedEpsR: Option<real>,
    fixedEps: Option<Complex>,
    modelKw: Option<ModelKw>,
    spectrumType: string,
    unit: string)

  function StrOf(v: PyValue): Option<string> {
    if v.PyStr? then Some(v.s) else None
  }

  function FloatOf(v: PyValue): Option<real> {
    if v.PyFloat? then Some(v.x) else None
  }

  function ComplexOf(v: PyValue): Option<Complex> {
    if v.PyComplex? then Some(v.z) else None
  }

  function DictOf(v: PyValue): Option<ModelKw> {
    if v.PyDict? then Some(v.model) else None
  }

  /** Every argument name that `_parse_args` checks is present. */
  predicate HasAllNames(m: map<Keyword, PyValue>) {
    FilePathArg in m && SpectrumTypeArg in m && UnitArg in m && FixedNArg in m &&
    FixedEpsRArg in m && FixedNkArg in m && FixedEpsArg in m && ModelKwArg in m
  }

  function InputsFrom(m: map<Keyword, PyValue>): Inputs
    requires HasAllNames(m)
    requires m[SpectrumTypeArg].PyStr? && m[UnitArg].PyStr?
  {
    Inputs(StrOf(m[FilePathArg]), FloatOf(m[FixedNArg]), ComplexOf(m[FixedNkArg]),
           FloatOf(m[FixedEpsRArg]), ComplexOf(m[FixedEpsArg]), DictOf(m[ModelKwArg]),
           m[SpectrumTypeArg].s, m[UnitArg].s)
  }

  /** A missing spectrum type or unit takes its default. */
  function WithDefaults(m: map<Keyword, PyValue>): (r: map<Keyword, PyValue>)
    requires SpectrumTypeArg in m && UnitArg in m
    ensures r.Keys == m.Keys
    ensures forall k :: k in m && k != SpectrumTypeArg && k != UnitArg ==> r[k] == m[k]
    ensures r[SpectrumTypeArg] == (if m[SpectrumTypeArg] == PyNone then PyStr("wavelength") else m[SpectrumTypeArg])
    ensures r[UnitArg] == (if m[UnitArg] == PyNone then PyStr("nanometer") else m[UnitArg])
  {
    var m1 := if m[SpectrumTypeArg] == PyNone then m[SpectrumTypeArg := PyStr("wavelength")] else m;
    if m1[UnitArg] == PyNone then m1[UnitArg := PyStr("nanometer")] else m1
  }

  /** `k` holds its argument, or None when it was not passed. */
  predicate Keeps(m0: map<Keyword, PyValue>, m: map<Keyword, PyValue>, k: Keyword) {
    k in m && m[k] == if k in m0 then m0[k] else PyNone
  }

  /** Every exclusive input present has the type its group admits. */
  predicate Typed(m: map<Keyword, PyValue>)
    requires HasAllNames(m)
  {
    (m[FilePathArg] == PyNone || m[FilePathArg].PyStr?) &&
    (m[FixedNArg] == PyNone || m[FixedNArg].PyFloat?) &&
    (m[FixedEpsRArg] == PyNone || m[FixedEpsRArg].PyFloat?) &&
    (m[FixedNkArg] == PyNone || m[FixedNkArg].PyComplex?) &&
    (m[FixedEpsArg] == PyNone || m[FixedEpsArg].PyComplex?) &&
    (m[ModelKwArg] == PyNone || m[ModelKwArg].PyDict?)
  }

  /** The four `_check_type` calls of `_parse_args`, with the defaults set between the first
      and the second. */
  function TypeChecked(m0: map<Keyword, PyValue>): (r: Result<map<Keyword, PyValue>>)
    ensures r.Ok? <==> WellTyped(m0)
    ensures r.Ok? ==> HasAllNames(r.value) && r.value[SpectrumTypeArg].PyStr? && r.value[UnitArg].PyStr?
    ensures r.Err? ==> r.error == TypeError
  {
    CheckedGroups(m0);
    var m1 :- StrChecked(m0);
    var m2 :- CheckedTypes(m1, FloatNames, FloatArgs);
    assert FixedNArg in FloatNames && FixedEpsRArg in FloatNames;
    var m3 :- CheckedTypes(m2, ComplexNames, ComplexArgs);
    assert FixedNkArg in ComplexNames && FixedEpsArg in ComplexNames;
    var m4 :- CheckedTypes(m3, DictNames, DictArgs);
    assert ModelKwArg in DictNames;
    Ok(m4)
  }

  /** One group's names that are passed and not None have a type the group admits: the
      condition under which `CheckedTypes` passes. */
  predicate GroupTyped(m: map<Keyword, PyValue>, names: seq<Keyword>, g: TypeGroup) {
    forall k :: k in names && k in m && m[k] != PyNone ==> Admits(g, m[k])
  }

  /** Well typed is well typed in each of the four groups. */
  lemma WellTypedByGroups(m: map<Keyword, PyValue>)
    ensures WellTyped(m) <==>
      GroupTyped(m, StrNames, StrArgs) && GroupTyped(m, FloatNames, FloatArgs) &&
      GroupTyped(m, ComplexNames, ComplexArgs) && GroupTyped(m, DictNames, DictArgs)
  {
    forall k: Keyword | !k.OtherArg?
      ensures (k in StrNames && GroupOf(k) == StrArgs) || (k in FloatNames && GroupOf(k) == FloatArgs) ||
        (k in ComplexNames && GroupOf(k) == ComplexArgs) || (k in DictNames && GroupOf(k) == DictArgs)
    {
    }
    forall k: Keyword | k in StrNames || k in FloatNames || k in ComplexNames || k in DictNames
      ensures !k.OtherArg?
      ensures k in StrNames ==> GroupOf(k) == StrArgs
      ensures k in FloatNames ==> GroupOf(k) == FloatArgs
      ensures k in ComplexNames ==> GroupOf(k) == ComplexArgs
      ensures k in DictNames ==> GroupOf(k) == DictArgs
    {
    }
  }

  /** A map holds the passed arguments under `names`, and nothing else under them. */
  predicate KeepsAll(m0: map<Keyword, PyValue>, m: map<Keyword, PyValue>, names: seq<Keyword>) {
    forall k :: k in names ==> (k in m <==> k in m0) && (k in m0 ==> m[k] == m0[k])
  }

  /** On a map that keeps a group's names as passed, its check passes exactly when the passed
      arguments are well typed in that group, and it keeps the names of the later groups. */
  lemma GroupStep(m0: map<Keyword, PyValue>, m: map<Keyword, PyValue>, names: seq<Keyword>, g: TypeGroup,
                  later: seq<Keyword>)
    requires KeepsAll(m0, m, names) && KeepsAll(m0, m, later)
    requires forall k :: k in later ==> k !in names
    ensures CheckedTypes(m, names, g).Ok? <==> GroupTyped(m0, names, g)
    ensures CheckedTypes(m, names, g).Ok? ==> KeepsAll(m0, CheckedTypes(m, names, g).value, later)
  {
  }

  /** The string check passes exactly when the string arguments are well typed; the defaults it
      sets touch no other group. */
  lemma StrStep(m0: map<Keyword, PyValue>)
    ensures StrChecked(m0).Ok? <==> GroupTyped(m0, StrNames, StrArgs)
    ensures StrChecked(m0).Ok? ==> KeepsAll(m0, StrChecked(m0).value, FloatNames + ComplexNames + DictNames)
  {
    assert forall k :: k in FloatNames + ComplexNames + DictNames ==> IsExclusive(k) && k != FilePathArg;
  }

  /** The arguments are well typed exactly when each of the four checks passes on what the
      previous ones leave. */
  lemma CheckedGroups(m0: map<Keyword, PyValue>)
    ensures WellTyped(m0) <==>
      StrChecked(m0).Ok? &&
      CheckedTypes(StrChecked(m0).value, FloatNames, FloatArgs).Ok? &&
      CheckedTypes(CheckedTypes(StrChecked(m0).value, FloatNames, FloatArgs).value, ComplexNames, ComplexArgs).Ok? &&
      CheckedTypes(CheckedTypes(CheckedTypes(StrChecked(m0).value, FloatNames, FloatArgs).value, ComplexNames, ComplexArgs).value,
        DictNames, DictArgs).Ok?
  {
    WellTypedByGroups(m0);
    StrStep(m0);
    if StrChecked(m0).Ok? {
      var m1 := StrChecked(m0).value;
      GroupStep(m0, m1, FloatNames, FloatArgs, ComplexNames + DictNames);
      var c2 := CheckedTypes(m1, FloatNames, FloatArgs);
      if c2.Ok? {
        GroupStep(m0, c2.value, ComplexNames, ComplexArgs, DictNames);
        var c3 := CheckedTypes(c2.value, ComplexNames, ComplexArgs);
        if c3.Ok? {
          GroupStep(m0, c3.value, DictNames, DictArgs, []);
        }
      }
    }
  }

  /** The string arguments checked, then the default spectrum type and unit set. */
  function StrChecked(m0: map<Keyword, PyValue>): (r: Result<map<Keyword, PyValue>>)
    ensures r.Ok? ==> FilePathArg in r.value && SpectrumTypeArg in r.value && UnitArg in r.value
    ensures r.Ok? ==> r.value[SpectrumTypeArg].PyStr? && r.value[UnitArg].PyStr?
    ensures r.Ok? ==> r.value[FilePathArg] == PyNone || r.value[FilePathArg].PyStr?
    ensures r.Err? ==> r.error == TypeError
    ensures r.Ok? ==> forall k :: IsExclusive(k) ==> (k in r.value <==> k in m0 || k == FilePathArg)
    ensures r.Ok? ==> forall k :: IsExclusive(k) && k in r.value ==> Keeps(m0, r.value, k)
  {
    var m1 :- CheckedTypes(m0, StrNames, StrArgs);
    assert FilePathArg in StrNames && SpectrumTypeArg in StrNames && UnitArg in StrNames;
    assert forall k :: IsExclusive(k) ==> k != SpectrumTypeArg && k != UnitArg && (k in StrNames <==> k == FilePathArg);
    Ok(WithDefaults(m1))
  }

  /** The group whose types a checked argument must have. */
  function GroupOf(k: Keyword): TypeGroup {
    match k
    case FilePathArg => StrArgs
    case SpectrumTypeArg => StrArgs
    case UnitArg => StrArgs
    case FixedNArg => FloatArgs
    case FixedEpsRArg => FloatArgs
    case FixedNkArg => ComplexArgs
    case FixedEpsArg => ComplexArgs
    case _ => DictArgs
  }

  /** Every one of the eight checked arguments that is passed and not None has a type its
      group admits; other keywords are not checked. */
  predicate WellTyped(m: map<Keyword, PyValue>) {
    forall k :: k in m && !k.OtherArg? && m[k] != PyNone ==> Admits(GroupOf(k), m[k])
  }

  /** The checks keep every exclusive input as passed, and add None for the others. */
  lemma TypeCheckedKeeps(m0: map<Keyword, PyValue>, k: Keyword)
    requires TypeChecked(m0).Ok? && IsExclusive(k)
    ensures Keeps(m0, TypeChecked(m0).value, k)
    ensures TypeChecked(m0).value[k] == PyNone || Admits(GroupOf(k), TypeChecked(m0).value[k])
  {
    var m1 := StrChecked(m0).value;
    var m2 := CheckedTypes(m1, FloatNames, FloatArgs).value;
    var m3 := CheckedTypes(m2, ComplexNames, ComplexArgs).value;
    var m4 := CheckedTypes(m3, DictNames, DictArgs).value;
    assert m4 == TypeChecked(m0).value;
    if k in m1 {
      assert Keeps(m0, m1, k);
      assert m4[k] == m1[k];
      if k != FilePathArg {
        assert k in m0;
        if k.FixedNArg? || k.FixedEpsRArg? {
          assert k in FloatNames;
        } else if k.FixedNkArg? || k.FixedEpsArg? {
          assert k in ComplexNames;
        } else {
          assert k in DictNames;
        }
      }
    } else if k in m2 {
      assert k in FloatNames && m2[k] == PyNone;
      assert m4[k] == m2[k];
    } else if k in m3 {
      assert k in ComplexNames && m3[k] == PyNone;
      assert m4[k] == m3[k];
    } else {
      assert k in DictNames && m4[k] == PyNone;
    }
  }

  /** `_parse_args`: no exclusive input, or more than one, is a ValueError; a given argument of
      the wrong type a TypeError. */
  function ParsedArgs(args: seq<(Keyword, PyValue)>): (r: Result<Inputs>)
    ensures ExclusiveCount(args) != 1 ==> r == Err(ValueError)
    ensures ExclusiveCount(args) == 1 && r.Err? ==> r.error == TypeError
    ensures ExclusiveCount(args) == 1 ==> (r.Ok? <==> WellTyped(InputsOf(args)))
  {
    var count := ExclusiveCount(args);
    if count == 0 then Err(ValueError)
    else if count > 1 then Err(ValueError)
    else
      var m :- TypeChecked(InputsOf(args));
      Ok(InputsFrom(m))
  }

  /** `_parse_args`: the counting loop, then the type checks. */
  method ParseArgs(args: seq<(Keyword, PyValue)>) returns (r: Result<Inputs>)
    ensures r == ParsedArgs(args)
  {
    var n, inputs := CollectArgs(args);
    if n == 0 {
      return Err(ValueError);
    } else if n > 1 {
      return Err(ValueError);
    }
    var m :- CheckTypes(inputs);
    r := Ok(InputsFrom(m));
  }

  method CheckTypes(m0: map<Keyword, PyValue>) returns (r: Result<map<Keyword, PyValue>>)
    ensures r == TypeChecked(m0)
  {
    var m1 :- CheckType(m0, StrNames, StrArgs);
    var m2 :- CheckType(WithDefaults(m1), FloatNames, FloatArgs);
    var m3 :- CheckType(m2, ComplexNames, ComplexArgs);
    r := CheckType(m3, DictNames, DictArgs);
  }

  /** The loop of `_parse_args` that counts the exclusive inputs and copies the arguments. */
  method CollectArgs(args: seq<(Keyword, PyValue)>) returns (n: nat, inputs: map<Keyword, PyValue>)
    ensures n == ExclusiveCount(args) && inputs == InputsOf(args)
  {
    inputs := map[];
    n := 0;
    for k := 0 to |args|
      invariant n == ExclusiveCount(args[..k])
      invariant inputs == InputsOf(args[..k])
    {
      assert args[..k + 1][..k] == args[..k];
      if args[k].1 != PyNone && IsExclusive(args[k].0) {
        n := n + 1;
      }
      inputs := inputs[args[k].0 := args[k].1];
    }
    assert args[..|args|] == args;
  }

  /** The value passed for `k`, or None when it was not passed. */
  function Passed(args: seq<(Keyword, PyValue)>, k: Keyword): PyValue {
    var m := InputsOf(args);
    if k in m then m[k] else PyNone
  }

  /** A successful parse keeps the spectrum type and unit passed, and otherwise takes
      'wavelength' and 'nanometer'. */
  lemma ParsedArgsFrame(args: seq<(Keyword, PyValue)>)
    requires ParsedArgs(args).Ok?
    ensures Passed(args, SpectrumTypeArg) == PyNone ==> ParsedArgs(args).value.spectrumType == "wavelength"
    ensures Passed(args, SpectrumTypeArg) != PyNone ==>
      Passed(args, SpectrumTypeArg) == PyStr(ParsedArgs(args).value.spectrumType)
    ensures Passed(args, UnitArg) == PyNone ==> ParsedArgs(args).value.unit == "nanometer"
    ensures Passed(args, UnitArg) != PyNone ==> Passed(args, UnitArg) == PyStr(ParsedArgs(args).value.unit)
  {
    var m0 := InputsOf(args);
    var m1 := CheckedTypes(m0, StrNames, StrArgs).value;
    assert SpectrumTypeArg in StrNames && UnitArg in StrNames;
    var m2 := StrChecked(m0).value;
    assert m2 == WithDefaults(m1);
    var m3 := CheckedTypes(m2, FloatNames, FloatArgs).value;
    var m4 := CheckedTypes(m3, ComplexNames, ComplexArgs).value;
    var m5 := CheckedTypes(m4, DictNames, DictArgs).value;
    assert m5 == TypeChecked(m0).value;
    assert m5[SpectrumTypeArg] == m2[SpectrumTypeArg] && m5[UnitArg] == m2[UnitArg];
  }

  /** The number of exclusive inputs that a parse result holds. */
  function Sources(p: Inputs): nat {
    (if p.filePath.Some? then 1 else 0) + (if p.fixedN.Some? then 1 else 0) +
    (if p.fixedNk.Some? then 1 else 0) + (if p.fixedEpsR.Some? then 1 else 0) +
    (if p.fixedEps.Some? then 1 else 0) + (if p.modelKw.Some? then 1 else 0)
  }

  /** With distinct names, the inputs map holds each argument's own value. */
  lemma {:induction false} InputsOfAt(args: seq<(Keyword, PyValue)>, j: int)
    requires DistinctNames(args) && 0 <= j < |args|
    ensures InputsOf(args)[args[j].0] == args[j].1
  {
    var n := |args| - 1;
    if j < n {
      var init := args[..n];
      assert init[j] == args[j];
      assert DistinctNames(init);
      InputsOfAt(init, j);
    }
  }

  /** With distinct names and one exclusive input given, an exclusive name holds a value other
      than None exactly when it is that input's name. */
  lemma GivenName(args: seq<(Keyword, PyValue)>, i: int, k: Keyword)
    requires DistinctNames(args) && OnlyGiven(args, i) && IsExclusive(k)
    ensures (k in InputsOf(args) && InputsOf(args)[k] != PyNone) <==> k == args[i].0
  {
    InputsOfAt(args, i);
    if k in InputsOf(args) {
      var j :| 0 <= j < |args| && args[j].0 == k;
      InputsOfAt(args, j);
    }
  }

  /** The parse result holds the exclusive input `k`. */
  predicate Holds(p: Inputs, k: Keyword) {
    match k
    case FilePathArg => p.filePath.Some?
    case FixedNArg => p.fixedN.Some?
    case FixedNkArg => p.fixedNk.Some?
    case FixedEpsRArg => p.fixedEpsR.Some?
    case FixedEpsArg => p.fixedEps.Some?
    case ModelKwArg => p.modelKw.Some?
    case _ => false
  }

  /** A successful parse holds an exclusive input exactly when it was given. */
  lemma ParsedArgsHold(args: seq<(Keyword, PyValue)>, i: int, k: Keyword)
    requires DistinctNames(args) && OnlyGiven(args, i) && IsExclusive(k)
    requires ParsedArgs(args).Ok?
    ensures Holds(ParsedArgs(args).value, k) <==> k == args[i].0
  {
    var m0 := InputsOf(args);
    var m := TypeChecked(m0).value;
    assert ParsedArgs(args).value == InputsFrom(m);
    TypeCheckedKeeps(m0, k);
    HoldsFrom(m, k);
    assert Holds(ParsedArgs(args).value, k) <==> m[k] != PyNone;
    GivenName(args, i, k);
  }

  lemma HoldsFrom(m: map<Keyword, PyValue>, k: Keyword)
    requires HasAllNames(m) && m[SpectrumTypeArg].PyStr? && m[UnitArg].PyStr? && IsExclusive(k)
    requires m[k] == PyNone || Admits(GroupOf(k), m[k])
    ensures Holds(InputsFrom(m), k) <==> m[k] != PyNone
  {
  }

  /** A successful parse holds exactly one of the six exclusive inputs. */
  lemma ParsedArgsHoldOneSource(args: seq<(Keyword, PyValue)>)
    requires DistinctNames(args)
    requires ParsedArgs(args).Ok?
    ensures Sources(ParsedArgs(args).value) == 1
  {
    ExclusiveCountOne(args);
    var i :| OnlyGiven(args, i);
    ParsedArgsHold(args, i, FilePathArg);
    ParsedArgsHold(args, i, FixedNArg);
    ParsedArgsHold(args, i, FixedNkArg);
    ParsedArgsHold(args, i, FixedEpsRArg);
    ParsedArgsHold(args, i, FixedEpsArg);
    ParsedArgsHold(args, i, ModelKwArg);
  }
}
