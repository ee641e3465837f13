/** Tabulated spectral data: `validate_table`, `fix_table` and `process_tabulated_data`
    (src/refractive_index_database/material_data.py, lines 23-72). */
module Tables {
  import opened Outcomes
  import opened Strings

  /** A two-dimensional numpy array of doubles: `rows` of `cols` entries each. */
  datatype Matrix = Matrix(rows: seq<seq<real>>, cols: nat)

  type Table = m: Matrix | forall i :: 0 <= i < |m.rows| ==> |m.rows[i]| == m.cols
    witness Matrix([], 0)

  /** The two kinds of boolean that Python code meets here: the built-in singletons and the
      `numpy.bool_` values that numpy reductions such as `np.all` return. */
  datatype PyBool = Bool(b: bool) | NumpyBool(b: bool)

  /** Python's `v is False`: identity with the built-in `False` object. */
  predicate IsFalse(v: PyBool) {
    v == Bool(false)
  }

  /** The first column strictly increases from each row to the next. */
  predicate Increasing(rows: seq<seq<real>>)
    requires forall i :: 0 <= i < |rows| ==> |rows[i]| > 0
  {
    forall i :: 0 < i < |rows| ==> rows[i - 1][0] < rows[i][0]
  }

  /** `validate_table`: `np.all(t[1:, 0] > t[:-1, 0])`, a numpy boolean; a table without a
      first column cannot be indexed. */
  function ValidateTable(t: Table): (r: Result<PyBool>)
    ensures r.Ok? <==> t.cols > 0
    ensures r.Ok? ==> r.value.NumpyBool? && (r.value.b <==> Increasing(t.rows))
  {
    if t.cols == 0 then Err(IndexError) else Ok(NumpyBool(Increasing(t.rows)))
  }

  /** The rows that the repair loop accepts after the first one: a row is kept when its
      first entry exceeds that of the last row kept so far. */
  function Kept(rows: seq<seq<real>>, last: real): seq<seq<real>>
    requires forall i :: 0 <= i < |rows| ==> |rows[i]| > 0
  {
    if |rows| == 0 then []
    else if rows[0][0] > last then [rows[0]] + Kept(rows[1..], rows[0][0])
    else Kept(rows[1..], last)
  }

  /** The rows of the repaired table: row 0, then the accepted rows. */
  function FixedRows(t: Table): seq<seq<real>>
    requires |t.rows| > 0 && t.cols > 0
  {
    [t.rows[0]] + Kept(t.rows[1..], t.rows[0][0])
  }

  /** `fix_table` as a value: an empty table or one without columns cannot be indexed. */
  function Repaired(t: Table): (r: Result<Table>)
    ensures r.Ok? <==> |t.rows| > 0 && t.cols > 0
    ensures r.Ok? ==> r.value.cols == t.cols
  {
    if |t.rows| == 0 || t.cols == 0 then Err(IndexError)
    else
      FixedIsIncreasing(t);
      Ok(Matrix(FixedRows(t), t.cols))
  }

  /** `fix_table`: throws out the rows that break strict monotonicity of the first column. */
  method FixTable(t: Table) returns (r: Result<Table>)
    ensures r == Repaired(t)
  {
    if |t.rows| == 0 || t.cols == 0 {
      return Err(IndexError);
    }
    var newRows := [t.rows[0]];
    var lastValid := t.rows[0][0];
    for row := 1 to |t.rows|
      invariant |newRows| > 0
      invariant forall i :: 0 <= i < |newRows| ==> |newRows[i]| == t.cols
      invariant lastValid == newRows[|newRows| - 1][0]
      invariant newRows + Kept(t.rows[row..], lastValid) == FixedRows(t)
    {
      assert t.rows[row..] == [t.rows[row]] + t.rows[row + 1..];
      if !(t.rows[row][0] > lastValid) {
        continue;
      } else {
        newRows := newRows + [t.rows[row]];
        lastValid := t.rows[row][0];
      }
    }
    assert t.rows[|t.rows|..] == [];
    assert newRows == FixedRows(t);
    r := Ok(Matrix(newRows, t.cols));
  }

  lemma {:induction false} KeptAbove(rows: seq<seq<real>>, last: real)
    requires forall i :: 0 <= i < |rows| ==> |rows[i]| > 0
    ensures forall i :: 0 <= i < |Kept(rows, last)| ==> |Kept(rows, last)[i]| > 0
    ensures Increasing(Kept(rows, last))
    ensures |Kept(rows, last)| > 0 ==> last < Kept(rows, last)[0][0]
  {
    if |rows| > 0 {
      KeptAbove(rows[1..], if rows[0][0] > last then rows[0][0] else last);
    }
  }

  /** The repaired table strictly increases in its first column, so it passes
      `validate_table`. */
  lemma FixedIsIncreasing(t: Table)
    requires |t.rows| > 0 && t.cols > 0
    ensures forall i :: 0 <= i < |FixedRows(t)| ==> |FixedRows(t)[i]| == t.cols
    ensures Increasing(FixedRows(t))
    ensures ValidateTable(Matrix(FixedRows(t), t.cols)) == Ok(NumpyBool(true))
  {
    KeptAbove(t.rows[1..], t.rows[0][0]);
    KeptRowsOf(t.rows[1..], t.rows[0][0]);
  }

  /** `a` is obtained from `b` by deleting entries. */
  predicate IsSubsequence<T(==)>(a: seq<T>, b: seq<T>)
    decreases |b|
  {
    if |a| == 0 then true
    else if |b| == 0 then false
    else (a[0] == b[0] && IsSubsequence(a[1..], b[1..])) || IsSubsequence(a, b[1..])
  }

  lemma {:induction false} KeptRowsOf(rows: seq<seq<real>>, last: real)
    requires forall i :: 0 <= i < |rows| ==> |rows[i]| > 0
    ensures IsSubsequence(Kept(rows, last), rows)
    ensures forall i :: 0 <= i < |Kept(rows, last)| ==> Kept(rows, last)[i] in rows
  {
    if |rows| > 0 {
      var next := if rows[0][0] > last then rows[0][0] else last;
      KeptRowsOf(rows[1..], next);
      if rows[0][0] > last {
        assert Kept(rows, last)[1..] == Kept(rows[1..], next);
      }
    }
  }

  /** The repair keeps row 0 and only deletes rows: the result is a subsequence of the input. */
  lemma FixedIsSubsequence(t: Table)
    requires |t.rows| > 0 && t.cols > 0
    ensures FixedRows(t)[0] == t.rows[0]
    ensures IsSubsequence(FixedRows(t), t.rows)
  {
    KeptRowsOf(t.rows[1..], t.rows[0][0]);
    assert FixedRows(t)[1..] == Kept(t.rows[1..], t.rows[0][0]);
  }

  lemma {:induction false} KeptAllWhenIncreasing(rows: seq<seq<real>>, last: real)
    requires forall i :: 0 <= i < |rows| ==> |rows[i]| > 0
    requires Increasing(rows)
    requires |rows| > 0 ==> last < rows[0][0]
    ensures Kept(rows, last) == rows
  {
    if |rows| > 0 {
      KeptAllWhenIncreasing(rows[1..], rows[0][0]);
    }
  }

  /** A table that already passes `validate_table` comes back unchanged. */
  lemma FixedIdentityWhenValid(t: Table)
    requires |t.rows| > 0 && t.cols > 0
    requires Increasing(t.rows)
    ensures FixedRows(t) == t.rows
  {
    KeptAllWhenIncreasing(t.rows[1..], t.rows[0][0]);
  }

  /** A row that steps back in the first column is dropped by the repair. */
  lemma FixedDropsStepBack()
    ensures var t: Table := Matrix([[1.0, 1.0], [2.0, 2.0], [1.5, 3.0], [3.0, 4.0]], 2);
      FixedRows(t) == [[1.0, 1.0], [2.0, 2.0], [3.0, 4.0]]
  {
  }

  /** The lines of a string table up to (not including) the first empty or whitespace-only one. */
  function Leading(lines: seq<string>): (r: seq<string>)
    ensures |r| <= |lines| && r == lines[..|r|]
    ensures forall i :: 0 <= i < |r| ==> !Blank(r[i])
    ensures |r| < |lines| ==> Blank(lines[|r|])
  {
    if |lines| == 0 || Blank(lines[0]) then [] else [lines[0]] + Leading(lines[1..])
  }

  /** Every token of a row converted with `float`, or None when one does not parse. */
  function ParseRow(words: seq<string>, parse: string -> Option<real>): (r: Option<seq<real>>)
    ensures r.Some? <==> forall j :: 0 <= j < |words| ==> parse(words[j]).Some?
    ensures r.Some? ==> |r.value| == |words|
    ensures r.Some? ==> forall j :: 0 <= j < |words| ==> r.value[j] == parse(words[j]).value
  {
    if |words| == 0 then Some([])
    else match (parse(words[0]), ParseRow(words[1..], parse))
      case (Some(x), Some(rest)) => Some([x] + rest)
      case _ => None
  }

  function ParseRows(lines: seq<string>, parse: string -> Option<real>): (r: Option<seq<seq<real>>>)
    ensures r.Some? <==> forall i :: 0 <= i < |lines| ==> ParseRow(Words(lines[i]), parse).Some?
    ensures r.Some? ==> |r.value| == |lines|
    ensures r.Some? ==>
      forall i :: 0 <= i < |lines| ==> r.value[i] == ParseRow(Words(lines[i]), parse).value
  {
    if |lines| == 0 then Some([])
    else match (ParseRow(Words(lines[0]), parse), ParseRows(lines[1..], parse))
      case (Some(row), Some(rest)) => Some([row] + rest)
      case _ => None
  }

  /** `np.array(rows)`: a ragged list of rows is refused; an empty list gives an array without
      columns. */
  function ToArray(rows: seq<seq<real>>): (r: Result<Table>)
    ensures r.Ok? <==> forall i :: 0 <= i < |rows| ==> |rows[i]| == |rows[0]|
    ensures r.Ok? ==> r.value.rows == rows
  {
    if |rows| == 0 then Ok(Matrix([], 0))
    else if forall i :: 0 <= i < |rows| ==> |rows[i]| == |rows[0]| then Ok(Matrix(rows, |rows[0]|))
    else Err(ValueError)
  }

  /** The table held in a string: lines split on newlines, parsing stops at the first empty
      or whitespace-only line, and each line becomes its whitespace-separated numbers. */
  function ParsedTable(s: string, parse: string -> Option<real>): Result<Table> {
    match ParseRows(Leading(Split(s, '\n')), parse)
    case None => Err(ValueError)
    case Some(rows) => ToArray(rows)
  }

  /** The string branch of `process_tabulated_data`, with its two nested append loops. */
  method ParseTable(s: string, parse: string -> Option<real>) returns (r: Result<Table>)
    ensures r == ParsedTable(s, parse)
  {
    var rows := ParseLines(Split(s, '\n'), parse);
    if rows.None? {
      return Err(ValueError);
    }
    r := ToArray(rows.value);
  }

  /** The outer loop of `process_tabulated_data`: lines are parsed until the first blank one. */
  method ParseLines(lines: seq<string>, parse: string -> Option<real>) returns (r: Option<seq<seq<real>>>)
    ensures r == ParseRows(Leading(lines), parse)
  {
    var numericTable: seq<seq<real>> := [];
    var i := 0;
    while i < |lines|
      invariant 0 <= i <= |lines|
      invariant forall k :: 0 <= k < i ==> !Blank(lines[k])
      invariant ParseRows(lines[..i], parse) == Some(numericTable)
    {
      if Blank(lines[i]) {
        break;
      }
      var numericCol := ParseLine(Words(lines[i]), parse);
      if numericCol.None? {
        LeadingPrefix(lines, i, parse);
        return None;
      }
      assert lines[..i + 1] == lines[..i] + [lines[i]];
      ParseRowsSnoc(lines[..i], lines[i], parse);
      numericTable := numericTable + [numericCol.value];
      i := i + 1;
    }
    LeadingIs(lines, i);
    r := Some(numericTable);
  }

  /** The inner loop of `process_tabulated_data`: every word of a line converted with `float`. */
  method ParseLine(words: seq<string>, parse: string -> Option<real>) returns (r: Option<seq<real>>)
    ensures r == ParseRow(words, parse)
  {
    var numericCol: seq<real> := [];
    for j := 0 to |words|
      invariant ParseRow(words[..j], parse) == Some(numericCol)
    {
      var x := parse(words[j]);
      if x.None? {
        assert ParseRow(words, parse).None?;
        return None;
      }
      numericCol := numericCol + [x.value];
      assert words[..j + 1] == words[..j] + [words[j]];
      ParseRowSnoc(words[..j], words[j], parse);
    }
    assert words[..|words|] == words;
    r := Some(numericCol);
  }

  lemma {:induction false} ParseRowSnoc(words: seq<string>, w: string, parse: string -> Option<real>)
    requires ParseRow(words, parse).Some? && parse(w).Some?
    ensures ParseRow(words + [w], parse) == Some(ParseRow(words, parse).value + [parse(w).value])
  {
    if |words| > 0 {
      ParseRowSnoc(words[1..], w, parse);
      assert (words + [w])[0] == words[0] && (words + [w])[1..] == words[1..] + [w];
      var x0, rest := parse(words[0]).value, ParseRow(words[1..], parse).value;
      assert ParseRow(words, parse).value == [x0] + rest;
      assert ParseRow(words + [w], parse) == Some([x0] + (rest + [parse(w).value]));
      assert [x0] + (rest + [parse(w).value]) == ([x0] + rest) + [parse(w).value];
    } else {
      assert words + [w] == [w] && [w][1..] == [];
      assert ParseRow([], parse) == Some([]);
      var x := parse(w).value;
      assert [x] + [] == [x];
      assert ParseRow([w], parse) == Some([x]);
      assert ParseRow(words, parse).value + [x] == [x];
    }
  }

  lemma {:induction false} ParseRowsSnoc(lines: seq<string>, l: string, parse: string -> Option<real>)
    requires ParseRows(lines, parse).Some? && ParseRow(Words(l), parse).Some?
    ensures ParseRows(lines + [l], parse) ==
      Some(ParseRows(lines, parse).value + [ParseRow(Words(l), parse).value])
  {
    if |lines| > 0 {
      ParseRowsSnoc(lines[1..], l, parse);
      assert (lines + [l])[0] == lines[0] && (lines + [l])[1..] == lines[1..] + [l];
      var r0, rest := ParseRow(Words(lines[0]), parse).value, ParseRows(lines[1..], parse).value;
      var row := ParseRow(Words(l), parse).value;
      assert ParseRows(lines, parse).value == [r0] + rest;
      assert ParseRows(lines + [l], parse) == Some([r0] + (rest + [row]));
      assert [r0] + (rest + [row]) == ([r0] + rest) + [row];
    } else {
      assert lines + [l] == [l] && [l][1..] == [];
      assert ParseRows([], parse) == Some([]);
      var row := ParseRow(Words(l), parse).value;
      assert [row] + [] == [row];
      assert ParseRows([l], parse) == Some([row]);
      assert ParseRows(lines, parse).value + [row] == [row];
    }
  }

  lemma {:induction false} LeadingIs(lines: seq<string>, i: nat)
    requires i <= |lines|
    requires forall k :: 0 <= k < i ==> !Blank(lines[k])
    requires i == |lines| || Blank(lines[i])
    ensures Leading(lines) == lines[..i]
  {
    if i > 0 {
      LeadingIs(lines[1..], i - 1);
      assert lines[..i] == [lines[0]] + lines[1..][..i - 1];
    }
  }

  /** When line i of the leading block fails to parse, the whole table fails. */
  lemma LeadingPrefix(lines: seq<string>, i: nat, parse: string -> Option<real>)
    requires i < |lines|
    requires forall k :: 0 <= k <= i ==> !Blank(lines[k])
    requires ParseRow(Words(lines[i]), parse).None?
    ensures ParseRows(Leading(lines), parse).None?
  {
    assert Leading(lines)[i] == lines[i] by { LeadingCovers(lines, i); }
  }

  lemma {:induction false} LeadingCovers(lines: seq<string>, i: nat)
    requires i < |lines|
    requires forall k :: 0 <= k <= i ==> !Blank(lines[k])
    ensures i < |Leading(lines)|
  {
    if i > 0 {
      LeadingCovers(lines[1..], i - 1);
    }
  }

  /** What `process_tabulated_data` may be handed: a string, a two-dimensional array, an
      array of fewer than two dimensions (what `np.loadtxt` returns for a file of one row or
      one column), or anything else. */
  datatype Tabulated = TextTable(text: string) | ArrayTable(table: Table) | FlatArray(values: seq<real>) | OtherTable

  /** The numeric table before validation: arrays pass through, strings are parsed and any
      other type is refused. An array of fewer than two dimensions passes through too, and then
      `validate_table`'s index `[1:, 0]` on two axes raises IndexError. */
  function NumericTable(input: Tabulated, parse: string -> Option<real>): Result<Table> {
    match input
    case ArrayTable(t) => Ok(t)
    case FlatArray(_) => Err(IndexError)
    case TextTable(s) => ParsedTable(s, parse)
    case OtherTable => Err(TypeError)
  }

  /** `process_tabulated_data` as written: the repair is guarded by `validate_table(t) is False`,
      an identity test against the built-in `False` that a numpy boolean never passes. */
  function ProcessedAsWritten(input: Tabulated, parse: string -> Option<real>): Result<Table> {
    var t :- NumericTable(input, parse);
    var valid :- ValidateTable(t);
    if IsFalse(valid) then Repaired(t) else Ok(t)
  }

  /** `process_tabulated_data` with the evidently intended guard `not validate_table(t)`. */
  function Processed(input: Tabulated, parse: string -> Option<real>): Result<Table> {
    var t :- NumericTable(input, parse);
    var valid :- ValidateTable(t);
    if !valid.b then Repaired(t) else Ok(t)
  }

  /** The repair never runs as written: whatever table comes back is the numeric table itself. */
  lemma AsWrittenNeverRepairs(input: Tabulated, parse: string -> Option<real>)
    ensures ProcessedAsWritten(input, parse).Ok? ==>
      ProcessedAsWritten(input, parse) == NumericTable(input, parse)
  {
  }

  /** An unsorted array comes back unsorted as written. */
  lemma AsWrittenKeepsStepBack()
    ensures var t: Table := Matrix([[1.0, 1.0], [2.0, 2.0], [1.5, 3.0], [3.0, 4.0]], 2);
      ProcessedAsWritten(ArrayTable(t), _ => None) == Ok(t) && !Increasing(t.rows)
  {
    var t: Table := Matrix([[1.0, 1.0], [2.0, 2.0], [1.5, 3.0], [3.0, 4.0]], 2);
    assert t.rows[2][0] < t.rows[1][0];
  }

  /** With the intended guard every table that comes back strictly increases in its first
      column, is the input itself when that was valid, and keeps the input's first row. */
  lemma ProcessedIsValid(input: Tabulated, parse: string -> Option<real>)
    ensures var r := Processed(input, parse);
      r.Ok? <==> (NumericTable(input, parse).Ok? && NumericTable(input, parse).value.cols > 0)
    ensures var r := Processed(input, parse);
      r.Ok? ==> r.value.cols > 0 && Increasing(r.value.rows)
    ensures var r := Processed(input, parse);
      r.Ok? ==> ValidateTable(r.value) == Ok(NumpyBool(true))
    ensures var r := Processed(input, parse);
      r.Ok? ==> IsSubsequence(r.value.rows, NumericTable(input, parse).value.rows)
    ensures var r := Processed(input, parse);
      r.Ok? && Increasing(NumericTable(input, parse).value.rows) ==>
        r == NumericTable(input, parse)
  {
    var n := NumericTable(input, parse);
    if n.Ok? && n.value.cols > 0 {
      var t := n.value;
      if !Increasing(t.rows) {
        FixedIsIncreasing(t);
        FixedIsSubsequence(t);
        assert Processed(input, parse) == Ok(Matrix(FixedRows(t), t.cols));
      } else {
        SubsequenceOfSelf(t.rows);
        assert Processed(input, parse) == Ok(t);
      }
    }
  }

  lemma {:induction false} SubsequenceOfSelf<T>(a: seq<T>)
    ensures IsSubsequence(a, a)
  {
    if |a| > 0 {
      SubsequenceOfSelf(a[1..]);
    }
  }

  /** The program as written and the corrected one part exactly on a numeric table that has
      columns and fails validation, where only the corrected one repairs it. */
  lemma AsWrittenDiffersOnUnsorted(input: Tabulated, parse: string -> Option<real>)
    ensures ProcessedAsWritten(input, parse) != Processed(input, parse) <==>
      NumericTable(input, parse).Ok? && NumericTable(input, parse).value.cols > 0 &&
      !Increasing(NumericTable(input, parse).value.rows)
  {
    var n := NumericTable(input, parse);
    if n.Ok? && n.value.cols > 0 && !Increasing(n.value.rows) {
      FixedIsIncreasing(n.value);
      assert Processed(input, parse).value.rows == FixedRows(n.value);
    }
  }

  /** `process_tabulated_data` as written: the numeric table, validated and returned unchanged.
      The repair guarded by `validate_table(t) is False` is left out of the body because it is
      unreachable: `validate_table` returns a numpy boolean, never the built-in `False`. */
  method ProcessTabulatedData(input: Tabulated, parse: string -> Option<real>)
    returns (r: Result<Table>)
    ensures r == ProcessedAsWritten(input, parse)
  {
    var numericTable: Table;
    match input {
      case ArrayTable(t) =>
        numericTable := t;
      case FlatArray(_) =>
        return Err(IndexError);
      case TextTable(s) =>
        numericTable :- ParseTable(s, parse);
      case OtherTable =>
        return Err(TypeError);
    }
    var valid :- ValidateTable(numericTable);
    assert !IsFalse(valid);
    r := Ok(numericTable);
  }
}
