/** The material-file record that both `Reader` classes (src/refractive_index_database/io.py
    and src/dispersion/io.py) produce, and the parsing they share: the extension dispatch, the
    `#` comment header with its `key: value` lines, and the normalisation of a parsed YAML
    mapping. Reading the file, `np.loadtxt` and the YAML parser are not part of this model:
    their results are inputs. */
module MaterialFiles {
  import opened Outcomes
  import opened Strings
  import opened Tables

  /** A value held in a material file record: YAML scalars, sequences and mappings, and the
      array `np.loadtxt` reads from a text file, which has two dimensions (`Array`) or fewer
      (`Flat`, its values in order). */
  datatype Value =
    | Text(text: string)
    | Number(x: real)
    | Items(items: seq<Value>)
    | Mapping(entries: seq<Entry>)
    | Array(table: Table)
    | Flat(values: seq<real>)

  /** One key of a mapping, in the order the YAML parser reports them. */
  datatype Entry = Entry(key: string, value: Value)

  /** `mapping[key]`; the keys of a parsed mapping are distinct, so the first match is the one. */
  function Lookup(entries: seq<Entry>, key: string): (r: Option<Value>)
    ensures r.Some? <==> exists i :: 0 <= i < |entries| && entries[i].key == key
    ensures r.Some? ==> Entry(key, r.value) in entries
  {
    if |entries| == 0 then None
    else if entries[0].key == key then Some(entries[0].value)
    else Lookup(entries[1..], key)
  }

  /** `FILE_META_DATA_KEYS` and `DATASET_META_DATA_KEYS`. The source keeps them in sets, whose
      iteration order Python does not fix; `OneFileKeyMatches` and its companions show that
      the order cannot change which key a header line selects. */
  const FileMetaKeys: seq<string> := ["Comment", "Reference", "Author", "Name", "FullName"]
  const DatasetMetaKeys: seq<string> := ["ValidRange", "DataType", "SpectrumType", "Unit"]

  /** The names by which a YAML dataset key is recognised: ValidRange by its four aliases, the
      other keys by their own names. */
  const DatasetAliases: seq<(string, string)> := [
    ("ValidRange", "validRange"), ("ValidRange", "range"), ("ValidRange", "spectra_range"),
    ("ValidRange", "wavelength_range"), ("DataType", "DataType"),
    ("SpectrumType", "SpectrumType"), ("Unit", "Unit")]

  /** The first key whose upper-cased name begins the keyword. */
  function FirstPrefix(kwd: string, keys: seq<string>): (r: Option<string>)
    ensures r.Some? ==> r.value in keys && StartsWith(kwd, Upper(r.value))
    ensures r.None? ==> forall i :: 0 <= i < |keys| ==> !StartsWith(kwd, Upper(keys[i]))
  {
    if |keys| == 0 then None
    else if StartsWith(kwd, Upper(keys[0])) then Some(keys[0])
    else FirstPrefix(kwd, keys[1..])
  }

  /** The key a YAML dataset keyword selects through its names. */
  function FirstAlias(kwd: string, names: seq<(string, string)>): (r: Option<string>)
    ensures r.Some? ==>
      exists i :: 0 <= i < |names| && names[i].0 == r.value && StartsWith(kwd, Upper(names[i].1))
    ensures r.None? ==> forall i :: 0 <= i < |names| ==> !StartsWith(kwd, Upper(names[i].1))
  {
    if |names| == 0 then None
    else if StartsWith(kwd, Upper(names[0].1)) then Some(names[0].0)
    else
      var r := FirstAlias(kwd, names[1..]);
      ghost var tail := names[1..];
      assert r.Some? ==>
        exists i :: 0 <= i < |tail| && tail[i].0 == r.value && StartsWith(kwd, Upper(tail[i].1));
      r
  }

  /** Two names one keyword begins with agree on every position of the shorter one. */
  lemma BothPrefixes(kwd: string, a: string, b: string, k: nat)
    requires StartsWith(kwd, Upper(a)) && StartsWith(kwd, Upper(b)) && k < |a| && k < |b|
    ensures UpperChar(a[k]) == UpperChar(b[k])
  {
    assert kwd[k] == Upper(a)[k] == Upper(b)[k];
  }

  /** No file key's name begins another's, so at most one file key matches a keyword. */
  lemma OneFileKeyMatches(kwd: string, a: string, b: string)
    requires a in FileMetaKeys && b in FileMetaKeys
    requires StartsWith(kwd, Upper(a)) && StartsWith(kwd, Upper(b))
    ensures a == b
  {
    if a != b {
      BothPrefixes(kwd, a, b, 0);
    }
  }

  /** The same holds for the dataset keys. */
  lemma OneDatasetKeyMatches(kwd: string, a: string, b: string)
    requires a in DatasetMetaKeys && b in DatasetMetaKeys
    requires StartsWith(kwd, Upper(a)) && StartsWith(kwd, Upper(b))
    ensures a == b
  {
    if a != b {
      BothPrefixes(kwd, a, b, 0);
    }
  }

  /** And for the YAML dataset names: a keyword selects at most one dataset key. */
  lemma OneAliasMatches(kwd: string, a: (string, string), b: (string, string))
    requires a in DatasetAliases && b in DatasetAliases
    requires StartsWith(kwd, Upper(a.1)) && StartsWith(kwd, Upper(b.1))
    ensures a == b
  {
    if a != b {
      BothPrefixes(kwd, a.1, b.1, 0);
      if UpperChar(a.1[0]) == UpperChar(b.1[0]) {
        BothPrefixes(kwd, a.1, b.1, 6);
      }
    }
  }

  /** A dataset record: its meta data and its coefficients or table. */
  datatype DataDict = DataDict(metaData: map<string, Value>, data: Value)

  /** A material file record: file meta data, datasets, specification, the comment header and
      the path it was read from. */
  datatype FileDict = FileDict(
    metaData: map<string, Value>,
    datasets: seq<DataDict>,
    specification: Value,
    metaComment: Value,
    filePath: string)

  function Blanks(keys: seq<string>): (m: map<string, Value>)
    ensures m.Keys == set k | k in keys
    ensures forall k :: k in m ==> m[k] == Text("")
  {
    map k | k in keys :: Text("")
  }

  /** A dataset's meta data holds exactly the dataset keys. */
  predicate DataDictShaped(d: DataDict) {
    d.metaData.Keys == set k | k in DatasetMetaKeys
  }

  /** A file's meta data holds exactly the file keys, and every dataset is shaped. */
  predicate FileDictShaped(f: FileDict) {
    f.metaData.Keys == (set k | k in FileMetaKeys) &&
    forall i :: 0 <= i < |f.datasets| ==> DataDictShaped(f.datasets[i])
  }

  /** `create_default_data_dict`: every dataset key blank and no data. */
  function DefaultDataDict(): (d: DataDict)
    ensures DataDictShaped(d)
    ensures forall k :: k in d.metaData ==> d.metaData[k] == Text("")
    ensures d.data == Items([])
  {
    DataDict(Blanks(DatasetMetaKeys), Items([]))
  }

  /** `create_default_file_dict`: every file key blank, one default dataset, an empty
      specification and comment, and the path. */
  function DefaultFileDict(path: string): (f: FileDict)
    ensures FileDictShaped(f) && f.datasets == [DefaultDataDict()]
    ensures forall k :: k in f.metaData ==> f.metaData[k] == Text("")
    ensures f.specification == Mapping([]) && f.metaComment == Text("") && f.filePath == path
  {
    FileDict(Blanks(FileMetaKeys), [DefaultDataDict()], Mapping([]), Text(""), path)
  }

  /** The position of the last `c` in `s`, or -1. */
  function LastIndex(s: string, c: char): (r: int)
    ensures -1 <= r < |s|
    ensures r >= 0 ==> s[r] == c
    ensures forall i :: r < i < |s| ==> s[i] != c
    decreases |s|
  {
    if |s| == 0 then -1
    else if s[|s| - 1] == c then |s| - 1
    else LastIndex(s[..|s| - 1], c)
  }

  /** `os.path.splitext` on a POSIX path: the extension runs from the last dot of the last
      path component, unless only dots precede that dot in the component. */
  function Splitext(path: string): (r: (string, string))
    ensures r.0 + r.1 == path
    ensures r.1 == "" || r.1[0] == '.'
    ensures forall i :: 0 < i < |r.1| ==> r.1[i] != '.' && r.1[i] != '/'
  {
    var sep := LastIndex(path, '/');
    var dot := LastIndex(path, '.');
    if dot > sep && exists i :: sep < i < dot && path[i] != '.' then (path[..dot], path[dot..])
    else (path, "")
  }

  lemma SplitextExamples()
    ensures Splitext("Ag.yml") == ("Ag", ".yml")
    ensures Splitext("data/.yml") == ("data/.yml", "")
  {
    var a := "Ag.yml";
    assert a[0] == 'A' && a[1] == 'g' && a[2] == '.' && a[3] == 'y' && a[4] == 'm' && a[5] == 'l';
    assert LastIndex(a, '.') == 2 && LastIndex(a, '/') == -1;
    assert -1 < 0 < 2 && a[0] != '.';
    assert a[..2] == "Ag" && a[2..] == ".yml";
    var b := "data/.yml";
    assert b[4] == '/' && b[5] == '.' && b[6] == 'y' && b[7] == 'm' && b[8] == 'l';
    assert LastIndex(b, '/') == 4 && LastIndex(b, '.') == 5;
  }

  datatype FileKind = TextFile | YamlFile

  /** `read_file`'s dispatch on the extension. */
  function FileKindOf(extension: string): (r: Result<FileKind>)
    ensures r == Ok(TextFile) <==> extension == ".txt" || extension == ".csv"
    ensures r == Ok(YamlFile) <==> extension == ".yml"
    ensures r.Err? ==> r.error == ValueError
  {
    if extension == ".txt" || extension == ".csv" then Ok(TextFile)
    else if extension == ".yml" then Ok(YamlFile)
    else Err(ValueError)
  }

  /** `line[1:].rstrip("\n\r")` */
  function CommentText(line: string): string
    requires |line| > 0
  {
    RStripNewlines(line[1..])
  }

  /** Lines read from a file are never empty: each holds at least its line break or text. */
  predicate FileLines(lines: seq<string>) {
    forall i :: 0 <= i < |lines| ==> |lines[i]| > 0
  }

  /** `_read_text_comment`: the leading run of lines that start with `#`, each without its
      `#` and its line break. */
  function CommentLines(lines: seq<string>): (r: seq<string>)
    requires FileLines(lines)
    ensures |r| <= |lines|
    ensures forall i :: 0 <= i < |r| ==> lines[i][0] == '#' && r[i] == CommentText(lines[i])
    ensures |r| < |lines| ==> lines[|r|][0] != '#'
  {
    if |lines| == 0 || lines[0][0] != '#' then []
    else [CommentText(lines[0])] + CommentLines(lines[1..])
  }

  /** One step of the comment scan from line `k` on. */
  lemma CommentLinesFrom(lines: seq<string>, k: nat)
    requires FileLines(lines) && k < |lines|
    ensures FileLines(lines[k..]) && FileLines(lines[k + 1..])
    ensures lines[k][0] != '#' ==> CommentLines(lines[k..]) == []
    ensures lines[k][0] == '#' ==>
      CommentLines(lines[k..]) == [CommentText(lines[k])] + CommentLines(lines[k + 1..])
  {
    assert lines[k..][1..] == lines[k + 1..];
  }

  /** `_read_text_comment` over the lines of the file. */
  method ReadTextComment(lines: seq<string>) returns (comment: seq<string>)
    requires FileLines(lines)
    ensures comment == CommentLines(lines)
  {
    comment := [];
    assert lines[0..] == lines;
    for k := 0 to |lines|
      invariant FileLines(lines[k..])
      invariant comment + CommentLines(lines[k..]) == CommentLines(lines)
    {
      CommentLinesFrom(lines, k);
      if lines[k][0] != '#' {
        assert comment + [] == comment;
        return;
      }
      comment := comment + [CommentText(lines[k])];
    }
    assert CommentLines(lines[|lines|..]) == [];
    assert comment + [] == comment;
  }

  /** Where a header keyword is stored. */
  datatype Slot = FileSlot(key: string) | DatasetSlot(key: string) | Ignored

  /** File keys are tried before dataset keys; a keyword matching neither is dropped, since
      the KeyError the source builds for it is never raised. */
  function HeaderSlot(kwd: string): (s: Slot)
    ensures s.FileSlot? ==> s.key in FileMetaKeys && StartsWith(kwd, Upper(s.key))
    ensures s.DatasetSlot? ==> s.key in DatasetMetaKeys && StartsWith(kwd, Upper(s.key))
    ensures !s.FileSlot? ==> forall i :: 0 <= i < |FileMetaKeys| ==> !StartsWith(kwd, Upper(FileMetaKeys[i]))
    ensures s.Ignored? ==>
      forall i :: 0 <= i < |DatasetMetaKeys| ==> !StartsWith(kwd, Upper(DatasetMetaKeys[i]))
  {
    match FirstPrefix(kwd, FileMetaKeys)
    case Some(k) => FileSlot(k)
    case None =>
      match FirstPrefix(kwd, DatasetMetaKeys)
      case Some(k) => DatasetSlot(k)
      case None => Ignored
  }

  /** Writes a header value into the file meta data or into the first dataset's. */
  function SetMeta(f: FileDict, slot: Slot, v: Value): (r: FileDict)
    requires |f.datasets| > 0
    ensures |r.datasets| == |f.datasets|
  {
    match slot
    case FileSlot(k) => f.(metaData := f.metaData[k := v])
    case DatasetSlot(k) =>
      f.(datasets := f.datasets[0 := f.datasets[0].(metaData := f.datasets[0].metaData[k := v])])
    case Ignored => f
  }

  /** One header line: without `:` it joins the comment, with one `:` it is a keyword and a
      value, with more it is refused. */
  function HeaderLine(f: FileDict, comment: string, line: string): Result<(FileDict, string)>
    requires |f.datasets| > 0
  {
    var parts := Split(line, ':');
    if |parts| == 1 then Ok((f, comment + line))
    else if |parts| == 2 then
      Ok((SetMeta(f, HeaderSlot(Upper(parts[0])), Text(LStrip(RStripNewlines(parts[1])))), comment))
    else Err(RuntimeError)
  }

  /** The state of the header loop where it stopped: the record as far as it got, the
      comment text, and the error that stopped it, if any. */
  datatype Scan = Scan(record: FileDict, comment: string, error: Option<Error>)

  function ScanHeader(f: FileDict, comment: string, lines: seq<string>): (s: Scan)
    requires |f.datasets| > 0
    ensures |s.record.datasets| == |f.datasets|
    decreases |lines|
  {
    if |lines| == 0 then Scan(f, comment, None)
    else
      match HeaderLine(f, comment, lines[0])
      case Err(e) => Scan(f, comment, Some(e))
      case Ok((f1, c1)) => ScanHeader(f1, c1, lines[1..])
  }

  /** The header loop of `read_text_file`. */
  method ApplyHeader(f: FileDict, lines: seq<string>) returns (s: Scan)
    requires |f.datasets| > 0
    ensures s == ScanHeader(f, "", lines)
  {
    var record := f;
    var comment := "";
    for k := 0 to |lines|
      invariant |record.datasets| == |f.datasets|
      invariant ScanHeader(record, comment, lines[k..]) == ScanHeader(f, "", lines)
    {
      assert lines[k..][1..] == lines[k + 1..];
      var parts := Split(lines[k], ':');
      if |parts| == 1 {
        comment := comment + lines[k];
      } else if |parts| == 2 {
        var kwd := Upper(parts[0]);
        var arg := LStrip(RStripNewlines(parts[1]));
        record := SetMeta(record, HeaderSlot(kwd), Text(arg));
      } else {
        return Scan(record, comment, Some(RuntimeError));
      }
    }
    assert lines[|lines|..] == [];
    s := Scan(record, comment, None);
  }

  lemma {:induction false} CountZero(s: string, c: char)
    ensures Count(s, c) == 0 <==> c !in s
  {
    if |s| > 0 {
      CountZero(s[1..], c);
      assert s == [s[0]] + s[1..];
    }
  }

  /** The header loop fails exactly when some line holds `:` twice or more, and then with
      RuntimeError. */
  lemma {:induction false} ScanHeaderFails(f: FileDict, comment: string, lines: seq<string>)
    requires |f.datasets| > 0
    ensures ScanHeader(f, comment, lines).error.Some? <==>
      exists i :: 0 <= i < |lines| && Count(lines[i], ':') >= 2
    ensures ScanHeader(f, comment, lines).error.Some? ==>
      ScanHeader(f, comment, lines).error.value == RuntimeError
    decreases |lines|
  {
    if |lines| > 0 {
      SplitCount(lines[0], ':');
      match HeaderLine(f, comment, lines[0])
      case Err(e) =>
      case Ok((f1, c1)) =>
        ScanHeaderFails(f1, c1, lines[1..]);
        assert forall i :: 1 <= i < |lines| ==> lines[i] == lines[1..][i - 1];
    }
  }

  /** The text of the lines without `:`, in order. */
  function Uncoloned(lines: seq<string>): string {
    if |lines| == 0 then "" else (if ':' in lines[0] then "" else lines[0]) + Uncoloned(lines[1..])
  }

  /** A header that is read to the end has gathered the lines without `:` as its comment. */
  lemma {:induction false} ScanHeaderComment(f: FileDict, comment: string, lines: seq<string>)
    requires |f.datasets| > 0 && ScanHeader(f, comment, lines).error.None?
    ensures ScanHeader(f, comment, lines).comment == comment + Uncoloned(lines)
    decreases |lines|
  {
    if |lines| > 0 {
      var step := HeaderLine(f, comment, lines[0]);
      assert step.Ok?;
      var (f1, c1) := step.value;
      assert ScanHeader(f, comment, lines) == ScanHeader(f1, c1, lines[1..]);
      HeaderLineComment(f, comment, lines[0]);
      ScanHeaderComment(f1, c1, lines[1..]);
      assert Uncoloned(lines) == (if ':' in lines[0] then "" else lines[0]) + Uncoloned(lines[1..]);
    }
  }

  /** A header line that is read adds itself to the comment exactly when it holds no `:`. */
  lemma HeaderLineComment(f: FileDict, comment: string, line: string)
    requires |f.datasets| > 0 && HeaderLine(f, comment, line).Ok?
    ensures HeaderLine(f, comment, line).value.1 == comment + (if ':' in line then "" else line)
  {
    SplitCount(line, ':');
    CountZero(line, ':');
  }

  /** A header value goes under a key the record already has. */
  lemma SetMetaKeepsShape(f: FileDict, slot: Slot, v: Value)
    requires |f.datasets| > 0 && FileDictShaped(f)
    requires slot.FileSlot? ==> slot.key in FileMetaKeys
    requires slot.DatasetSlot? ==> slot.key in DatasetMetaKeys
    ensures FileDictShaped(SetMeta(f, slot, v))
  {
    if slot.DatasetSlot? {
      var r := SetMeta(f, slot, v);
      assert DataDictShaped(f.datasets[0]);
      forall i | 0 <= i < |r.datasets| ensures DataDictShaped(r.datasets[i]) {
        if i > 0 { assert r.datasets[i] == f.datasets[i]; }
      }
    }
  }

  /** The header writes only known keys, so a shaped record stays shaped. */
  lemma {:induction false} ScanHeaderKeepsShape(f: FileDict, comment: string, lines: seq<string>)
    requires |f.datasets| > 0 && FileDictShaped(f)
    ensures FileDictShaped(ScanHeader(f, comment, lines).record)
    decreases |lines|
  {
    if |lines| > 0 {
      match HeaderLine(f, comment, lines[0])
      case Err(e) =>
      case Ok((f1, c1)) =>
        var parts := Split(lines[0], ':');
        if |parts| == 2 {
          SetMetaKeepsShape(f, HeaderSlot(Upper(parts[0])), Text(LStrip(RStripNewlines(parts[1]))));
        }
        ScanHeaderKeepsShape(f1, c1, lines[1..]);
    }
  }

  /** The array `np.loadtxt` returns for the rows it read: it squeezes away an axis of length
      one, so a file of one row or of one column gives an array of fewer than two dimensions. */
  function Loaded(table: Table): (v: Value)
    ensures v.Array? <==> |table.rows| > 1 && table.cols > 1
    ensures v.Array? ==> v.table == table
    ensures |table.rows| == 1 ==> v == Flat(table.rows[0])
    ensures table.cols == 1 ==> v == Flat(seq(|table.rows|, i requires 0 <= i < |table.rows| => table.rows[i][0]))
  {
    if |table.rows| == 1 then Flat(table.rows[0])
    else if table.cols == 1 then Flat(seq(|table.rows|, i requires 0 <= i < |table.rows| => table.rows[i][0]))
    else if |table.rows| == 0 || table.cols == 0 then Flat([])
    else Array(table)
  }

  /** The dataset a text file holds: `tabulated nk` data from the loaded array. */
  function TextDataset(table: Table): (d: DataDict)
    ensures DataDictShaped(d)
    ensures d.metaData["DataType"] == Text("tabulated nk") && d.data == Loaded(table)
  {
    var blank := DefaultDataDict();
    DataDict(blank.metaData["DataType" := Text("tabulated nk")], Loaded(table))
  }

  /** `read_text_file` on `dict(default_file_dict)`: the result, and the default record as
      the shallow copy leaves it. The copy shares the meta data dict and the dataset list
      with the default, so everything but the comment written into the copy shows in the
      default too, up to the line that raised. */
  function TextFileRecord(shared: FileDict, dataset: DataDict, header: seq<string>)
    : (Result<FileDict>, FileDict)
    requires |shared.datasets| > 0
  {
    var s := ScanHeader(shared.(datasets := shared.datasets[0 := dataset]), "", header);
    var aliased := s.record.(metaComment := shared.metaComment);
    if s.error.Some? then (Err(s.error.value), aliased)
    else (Ok(if s.comment != "" then s.record.(metaComment := Text(s.comment)) else s.record), aliased)
  }

  /** `mapping[key]`, which raises KeyError for a missing key. */
  function Found(entries: seq<Entry>, key: string): (r: Result<Value>)
    ensures r.Ok? <==> Lookup(entries, key).Some?
    ensures r.Ok? ==> r.value == Lookup(entries, key).value
    ensures r.Err? ==> r.error == KeyError
  {
    match Lookup(entries, key)
    case Some(v) => Ok(v)
    case None => Err(KeyError)
  }

  /** The dataset keys the keywords of a YAML dataset name, in the order they appear; a later
      keyword for the same key wins. */
  function NameDatasetKeys(d: DataDict, entries: seq<Entry>): (r: DataDict)
    ensures DataDictShaped(d) ==> DataDictShaped(r)
    ensures r.data == d.data
    decreases |entries|
  {
    if |entries| == 0 then d
    else
      var named :=
        match FirstAlias(Upper(entries[0].key), DatasetAliases)
        case Some(k) =>
          assert k in DatasetMetaKeys;
          d.(metaData := d.metaData[k := entries[0].value])
        case None => d;
      NameDatasetKeys(named, entries[1..])
  }

  /** A YAML dataset keyword names the dataset key `k` when it begins with the upper-cased form
      of one of `k`'s names. */
  predicate NamesDatasetKey(kwd: string, k: string) {
    exists j :: 0 <= j < |DatasetAliases| && DatasetAliases[j].0 == k && StartsWith(kwd, Upper(DatasetAliases[j].1))
  }

  /** The key the search over the names finds is the one the keyword names. */
  lemma FirstAliasNames(kwd: string, k: string)
    ensures FirstAlias(kwd, DatasetAliases) == Some(k) <==> NamesDatasetKey(kwd, k)
  {
    if NamesDatasetKey(kwd, k) {
      var j :| 0 <= j < |DatasetAliases| && DatasetAliases[j].0 == k && StartsWith(kwd, Upper(DatasetAliases[j].1));
      var found := FirstAlias(kwd, DatasetAliases).value;
      var i :| 0 <= i < |DatasetAliases| && DatasetAliases[i].0 == found && StartsWith(kwd, Upper(DatasetAliases[i].1));
      OneAliasMatches(kwd, DatasetAliases[i], DatasetAliases[j]);
    }
  }

  /** Entry `i` is the last of `entries` whose keyword names the dataset key `k`. */
  predicate LastAlias(entries: seq<Entry>, i: int, k: string) {
    0 <= i < |entries| && NamesDatasetKey(Upper(entries[i].key), k) &&
    forall j :: i < j < |entries| ==> !NamesDatasetKey(Upper(entries[j].key), k)
  }

  /** No keyword of `entries` names the dataset key `k`. */
  predicate NoAlias(entries: seq<Entry>, k: string) {
    forall i :: 0 <= i < |entries| ==> !NamesDatasetKey(Upper(entries[i].key), k)
  }

  /** Every dataset key holds the value of the last keyword that names it by any of its names,
      and keeps its value when no keyword does. */
  lemma {:induction false} NameDatasetKeysRoutes(d: DataDict, entries: seq<Entry>)
    ensures var m := NameDatasetKeys(d, entries).metaData;
      forall k :: NoAlias(entries, k) ==> (k in m <==> k in d.metaData) && (k in d.metaData ==> m[k] == d.metaData[k])
    ensures var m := NameDatasetKeys(d, entries).metaData;
      forall i, k :: LastAlias(entries, i, k) ==> k in m && m[k] == entries[i].value
    decreases |entries|
  {
    if |entries| > 0 {
      var kwd := Upper(entries[0].key);
      var named := match FirstAlias(kwd, DatasetAliases)
        case Some(k) => d.(metaData := d.metaData[k := entries[0].value])
        case None => d;
      assert NameDatasetKeys(d, entries) == NameDatasetKeys(named, entries[1..]);
      NameDatasetKeysRoutes(named, entries[1..]);
      var m := NameDatasetKeys(d, entries).metaData;
      var tail := entries[1..];
      assert forall i :: 1 <= i < |entries| ==> entries[i] == tail[i - 1];
      forall k | NoAlias(entries, k)
        ensures (k in m <==> k in d.metaData) && (k in d.metaData ==> m[k] == d.metaData[k])
      {
        assert NoAlias(tail, k);
        FirstAliasNames(kwd, k);
      }
      forall i, k | LastAlias(entries, i, k)
        ensures k in m && m[k] == entries[i].value
      {
        if i == 0 {
          assert NoAlias(tail, k);
          FirstAliasNames(kwd, k);
        } else {
          assert LastAlias(tail, i - 1, k);
        }
      }
    }
  }

  predicate IsCoefficientType(dataType: string) {
    StartsWith(dataType, "formula") || StartsWith(dataType, "model")
  }

  /** The data of a dataset: coefficients for `formula` and `model` types, the table for
      `tabulated` types, and KeyError for any other type. */
  function DataFor(entries: seq<Entry>, dataType: string): Result<Value> {
    if IsCoefficientType(dataType) then Found(entries, "coefficients")
    else if StartsWith(dataType, "tabulated") then Found(entries, "data")
    else Err(KeyError)
  }

  /** A default dataset with its type and data set. */
  function TypedDataDict(dataType: string, data: Value): (d: DataDict)
    ensures DataDictShaped(d) && d.data == data
  {
    var blank := DefaultDataDict();
    assert "DataType" in blank.metaData by { assert DatasetMetaKeys[1] == "DataType"; }
    DataDict(blank.metaData["DataType" := Text(dataType)], data)
  }

  /** One dataset of `read_yaml_data_dict`. A dataset that is not a mapping cannot be indexed
      by `'type'` (TypeError); a type that is not a string has no `lstrip` (AttributeError). */
  function DatasetOf(v: Value): (r: Result<DataDict>)
    ensures r.Ok? ==> DataDictShaped(r.value)
  {
    match v
    case Mapping(entries) =>
      var t :- Found(entries, "type");
      if !t.Text? then Err(AttributeError)
      else
        var dataType := LStrip(t.text);
        var data :- DataFor(entries, dataType);
        Ok(NameDatasetKeys(TypedDataDict(dataType, data), entries))
    case _ => Err(TypeError)
  }

  /** The loop of `read_yaml_data_dict` over a list of datasets. */
  function DatasetList(items: seq<Value>): (r: Result<seq<DataDict>>)
    ensures r.Ok? <==> forall i :: 0 <= i < |items| ==> DatasetOf(items[i]).Ok?
    ensures r.Ok? ==> |r.value| == |items|
    ensures r.Ok? ==> forall i :: 0 <= i < |items| ==> r.value[i] == DatasetOf(items[i]).value
    decreases |items|
  {
    if |items| == 0 then Ok([])
    else
      assert forall i :: 1 <= i < |items| ==> items[i] == items[1..][i - 1];
      var d :- DatasetOf(items[0]);
      var rest :- DatasetList(items[1..]);
      Ok([d] + rest)
  }

  /** `read_yaml_data_dict(arg)`: the loop runs over whatever the DATA entry holds. Iterating a
      mapping or a string yields strings, which cannot be indexed by `'type'`; a number cannot
      be iterated; the rows or numbers of an array cannot be indexed by a string. */
  function Datasets(v: Value): (r: Result<seq<DataDict>>)
    ensures v.Items? ==> r == DatasetList(v.items)
    ensures r.Ok? && !v.Items? ==> r.value == []
  {
    match v
    case Items(items) => DatasetList(items)
    case Mapping(entries) => if |entries| == 0 then Ok([]) else Err(TypeError)
    case Text(text) => if |text| == 0 then Ok([]) else Err(TypeError)
    case Number(_) => Err(TypeError)
    case Array(table) => if |table.rows| == 0 then Ok([]) else Err(IndexError)
    case Flat(values) => if |values| == 0 then Ok([]) else Err(IndexError)
  }

  /** `list` followed by the datasets of `rest`, or the error that stopped them. */
  function After(list: seq<DataDict>, rest: Result<seq<DataDict>>): Result<seq<DataDict>> {
    match rest
    case Ok(more) => Ok(list + more)
    case Err(e) => Err(e)
  }

  /** One step of the dataset loop from item `k` on. */
  lemma DatasetListFrom(items: seq<Value>, k: nat, list: seq<DataDict>)
    requires k < |items|
    ensures DatasetOf(items[k]).Err? ==> After(list, DatasetList(items[k..])) == Err(DatasetOf(items[k]).error)
    ensures DatasetOf(items[k]).Ok? ==>
      After(list, DatasetList(items[k..])) == After(list + [DatasetOf(items[k]).value], DatasetList(items[k + 1..]))
  {
    assert items[k..][0] == items[k];
    assert items[k..][1..] == items[k + 1..];
    if DatasetOf(items[k]).Ok? && DatasetList(items[k + 1..]).Ok? {
      var d := DatasetOf(items[k]).value;
      assert list + ([d] + DatasetList(items[k + 1..]).value) == list + [d] + DatasetList(items[k + 1..]).value;
    }
  }

  /** `read_yaml_data_dict` as the loop that appends one dataset after another. */
  method ProcessDatasets(v: Value) returns (r: Result<seq<DataDict>>)
    ensures r == Datasets(v)
  {
    if !v.Items? {
      return Datasets(v);
    }
    var items := v.items;
    var list: seq<DataDict> := [];
    assert items[0..] == items;
    if DatasetList(items).Ok? {
      assert [] + DatasetList(items).value == DatasetList(items).value;
    }
    for k := 0 to |items|
      invariant After(list, DatasetList(items[k..])) == DatasetList(items)
    {
      DatasetListFrom(items, k, list);
      var d := DatasetOf(items[k]);
      if d.Err? {
        return Err(d.error);
      }
      list := list + [d.value];
    }
    assert DatasetList(items[|items|..]) == Ok([]);
    assert list + [] == list;
    r := Ok(list);
  }

  /** The keys of a mapping, in order. */
  function KeysOf(entries: seq<Entry>): (r: seq<string>)
    ensures |r| == |entries|
    ensures forall i :: 0 <= i < |entries| ==> r[i] == entries[i].key
  {
    seq(|entries|, i requires 0 <= i < |entries| => entries[i].key)
  }

  /** A YAML keyword names the file key `k` when it is neither DATA nor SPECS and begins with
      the upper-cased name of `k`. */
  predicate NamesFileKey(kwd: string, k: string) {
    kwd != "DATA" && kwd != "SPECS" && k in FileMetaKeys && StartsWith(kwd, Upper(k))
  }

  /** The file key a keyword names is the one the search over the file keys finds. */
  lemma FirstPrefixNames(kwd: string, k: string)
    requires k in FileMetaKeys && StartsWith(kwd, Upper(k))
    ensures FirstPrefix(kwd, FileMetaKeys) == Some(k)
  {
    var j :| 0 <= j < |FileMetaKeys| && FileMetaKeys[j] == k;
    OneFileKeyMatches(kwd, k, FirstPrefix(kwd, FileMetaKeys).value);
  }

  /** One keyword of `read_yaml_file_dict`: the value is looked up under the upper-cased
      keyword; DATA becomes the datasets, SPECS the specification, a file key's name its meta
      data, and anything else is dropped. */
  function YamlEntry(f: FileDict, yaml: seq<Entry>, key: string): (r: Result<FileDict>)
    ensures Lookup(yaml, Upper(key)).None? ==> r == Err(KeyError)
    ensures Upper(key) == "SPECS" && Lookup(yaml, "SPECS").Some? ==>
      r == Ok(f.(specification := Lookup(yaml, "SPECS").value))
    ensures Upper(key) == "DATA" && Lookup(yaml, "DATA").Some? ==>
      var ds := Datasets(Lookup(yaml, "DATA").value);
      (ds.Ok? ==> r == Ok(f.(datasets := ds.value))) && (ds.Err? ==> r == Err(ds.error))
    ensures forall k :: NamesFileKey(Upper(key), k) && Lookup(yaml, Upper(key)).Some? ==>
      r == Ok(f.(metaData := f.metaData[k := Lookup(yaml, Upper(key)).value]))
    ensures (Lookup(yaml, Upper(key)).Some? && Upper(key) != "DATA" && Upper(key) != "SPECS" &&
             forall k :: !NamesFileKey(Upper(key), k)) ==> r == Ok(f)
    ensures r.Ok? ==> r.value.metaData.Keys <= f.metaData.Keys + set k | k in FileMetaKeys
  {
    assert forall k :: NamesFileKey(Upper(key), k) ==> FirstPrefix(Upper(key), FileMetaKeys) == Some(k) by {
      forall k | NamesFileKey(Upper(key), k) ensures FirstPrefix(Upper(key), FileMetaKeys) == Some(k) {
        FirstPrefixNames(Upper(key), k);
      }
    }
    var kwd := Upper(key);
    var arg :- Found(yaml, kwd);
    if kwd == "DATA" then
      var datasets :- Datasets(arg);
      Ok(f.(datasets := datasets))
    else if kwd == "SPECS" then Ok(f.(specification := arg))
    else
      match FirstPrefix(kwd, FileMetaKeys)
      case Some(k) => Ok(f.(metaData := f.metaData[k := arg]))
      case None => Ok(f)
  }

  /** The loop of `read_yaml_file_dict`: the record as far as it got and the error that
      stopped it, if any. */
  function ScanYaml(f: FileDict, yaml: seq<Entry>, keys: seq<string>): (r: (FileDict, Option<Error>))
    decreases |keys|
  {
    if |keys| == 0 then (f, None)
    else
      match YamlEntry(f, yaml, keys[0])
      case Err(e) => (f, Some(e))
      case Ok(f1) => ScanYaml(f1, yaml, keys[1..])
  }

  method ProcessYaml(f: FileDict, yaml: seq<Entry>) returns (record: FileDict, error: Option<Error>)
    ensures (record, error) == ScanYaml(f, yaml, KeysOf(yaml))
  {
    var keys := KeysOf(yaml);
    record := f;
    for k := 0 to |keys|
      invariant ScanYaml(record, yaml, keys[k..]) == ScanYaml(f, yaml, keys)
    {
      assert keys[k..][1..] == keys[k + 1..];
      var kwd := Upper(keys[k]);
      var arg := Found(yaml, kwd);
      if arg.Err? {
        return record, Some(arg.error);
      }
      if kwd == "DATA" {
        var datasets := ProcessDatasets(arg.value);
        if datasets.Err? {
          return record, Some(datasets.error);
        }
        record := record.(datasets := datasets.value);
      } else if kwd == "SPECS" {
        record := record.(specification := arg.value);
      } else {
        match FirstPrefix(kwd, FileMetaKeys) {
          case Some(key) =>
            record := record.(metaData := record.metaData[key := arg.value]);
          case None =>
        }
      }
    }
    assert keys[|keys|..] == [];
    error := None;
  }

  /** Every keyword of a mapping read to the end has its upper-cased form among the keys:
      a lower-case `data` without a `DATA` twin raises KeyError. */
  lemma {:induction false} ScanYamlNeedsUpperKeys(f: FileDict, yaml: seq<Entry>, keys: seq<string>)
    requires ScanYaml(f, yaml, keys).1.None?
    ensures forall i :: 0 <= i < |keys| ==> Lookup(yaml, Upper(keys[i])).Some?
    decreases |keys|
  {
    if |keys| > 0 {
      var f1 := YamlEntry(f, yaml, keys[0]).value;
      ScanYamlNeedsUpperKeys(f1, yaml, keys[1..]);
      assert forall i :: 1 <= i < |keys| ==> keys[i] == keys[1..][i - 1];
    }
  }

  /** The YAML loop writes only file keys into the meta data. */
  lemma {:induction false} ScanYamlKeepsMetaKeys(f: FileDict, yaml: seq<Entry>, keys: seq<string>)
    requires f.metaData.Keys == set k | k in FileMetaKeys
    ensures ScanYaml(f, yaml, keys).0.metaData.Keys == set k | k in FileMetaKeys
    decreases |keys|
  {
    if |keys| > 0 {
      match YamlEntry(f, yaml, keys[0])
      case Err(e) =>
      case Ok(f1) =>
        ScanYamlKeepsMetaKeys(f1, yaml, keys[1..]);
    }
  }

  /** No keyword of `keys` names the file key `k`. */
  predicate Unnamed(keys: seq<string>, k: string) {
    forall i :: 0 <= i < |keys| ==> !NamesFileKey(Upper(keys[i]), k)
  }

  /** Keyword `i` of `keys` is the last that names the file key `k`. */
  predicate LastNaming(keys: seq<string>, i: int, k: string) {
    0 <= i < |keys| && NamesFileKey(Upper(keys[i]), k) &&
    forall j :: i < j < |keys| ==> !NamesFileKey(Upper(keys[j]), k)
  }

  /** A mapping read to the end holds, under SPECS and DATA, the specification and the
      datasets when one of its keywords selects them, and the record keeps its own otherwise. */
  lemma {:induction false} ScanYamlSpecsAndData(f: FileDict, yaml: seq<Entry>, keys: seq<string>)
    requires ScanYaml(f, yaml, keys).1.None?
    ensures (forall i :: 0 <= i < |keys| ==> Upper(keys[i]) != "SPECS") ==>
      ScanYaml(f, yaml, keys).0.specification == f.specification
    ensures forall i :: 0 <= i < |keys| && Upper(keys[i]) == "SPECS" ==>
      Lookup(yaml, "SPECS") == Some(ScanYaml(f, yaml, keys).0.specification)
    ensures (forall i :: 0 <= i < |keys| ==> Upper(keys[i]) != "DATA") ==>
      ScanYaml(f, yaml, keys).0.datasets == f.datasets
    ensures forall i :: 0 <= i < |keys| && Upper(keys[i]) == "DATA" ==>
      Lookup(yaml, "DATA").Some? && Datasets(Lookup(yaml, "DATA").value) == Ok(ScanYaml(f, yaml, keys).0.datasets)
    decreases |keys|
  {
    if |keys| > 0 {
      var f1 := YamlEntry(f, yaml, keys[0]).value;
      assert ScanYaml(f, yaml, keys) == ScanYaml(f1, yaml, keys[1..]);
      ScanYamlSpecsAndData(f1, yaml, keys[1..]);
      assert forall i :: 1 <= i < |keys| ==> keys[i] == keys[1..][i - 1];
    }
  }

  /** A mapping read to the end holds, under each file key, the value of the last keyword
      that names it, and the record's own value when none does. */
  lemma {:induction false} ScanYamlMeta(f: FileDict, yaml: seq<Entry>, keys: seq<string>)
    requires ScanYaml(f, yaml, keys).1.None?
    ensures var m := ScanYaml(f, yaml, keys).0.metaData;
      forall k :: Unnamed(keys, k) ==> (k in m <==> k in f.metaData) && (k in f.metaData ==> m[k] == f.metaData[k])
    ensures var m := ScanYaml(f, yaml, keys).0.metaData;
      forall i, k :: LastNaming(keys, i, k) ==> k in m && Lookup(yaml, Upper(keys[i])) == Some(m[k])
    decreases |keys|
  {
    if |keys| > 0 {
      var f1 := YamlEntry(f, yaml, keys[0]).value;
      assert ScanYaml(f, yaml, keys) == ScanYaml(f1, yaml, keys[1..]);
      ScanYamlMeta(f1, yaml, keys[1..]);
      var m := ScanYaml(f, yaml, keys).0.metaData;
      var kwd := Upper(keys[0]);
      var tail := keys[1..];
      assert forall i :: 1 <= i < |keys| ==> keys[i] == tail[i - 1];
      forall k | Unnamed(keys, k)
        ensures (k in m <==> k in f.metaData) && (k in f.metaData ==> m[k] == f.metaData[k])
      {
        assert Unnamed(tail, k);
        assert !NamesFileKey(kwd, k);
      }
      forall i, k | LastNaming(keys, i, k)
        ensures k in m && Lookup(yaml, Upper(keys[i])) == Some(m[k])
      {
        if i == 0 {
          assert Unnamed(tail, k);
        } else {
          assert LastNaming(tail, i - 1, k);
        }
      }
    }
  }

  /** `read_yaml_file` on `dict(default_file_dict)`: the result, and the default record as
      the shallow copy leaves it. The copy shares only the meta data dict with the default;
      DATA and SPECS rebind entries of the copy. */
  function YamlFileRecord(shared: FileDict, yaml: seq<Entry>, comment: seq<string>)
    : (Result<FileDict>, FileDict)
  {
    var (record, error) := ScanYaml(shared, yaml, KeysOf(yaml));
    var aliased := shared.(metaData := record.metaData);
    if error.Some? then (Err(error.value), aliased)
    else (Ok(record.(metaComment := CommentValue(comment))), aliased)
  }

  /** The YAML reader stores the comment header as the list of its lines. */
  function CommentValue(comment: seq<string>): (v: Value)
    ensures v.Items? && |v.items| == |comment|
    ensures forall i :: 0 <= i < |comment| ==> v.items[i] == Text(comment[i])
  {
    Items(seq(|comment|, i requires 0 <= i < |comment| => Text(comment[i])))
  }

  /** What a Reader's file holds, as the file system, `np.loadtxt` and the YAML parser
      deliver it: the lines of the file, the rows `np.loadtxt` reads or the loader's error, and the parsed
      top-level mapping or the parser's error. */
  datatype FileSource = FileSource(lines: seq<string>, loaded: Result<Table>, parsed: Result<seq<Entry>>)

  /** `read_file` on a Reader whose default record is `shared`: the result and the default
      record afterwards. */
  function ReadFileRecord(shared: FileDict, extension: string, src: FileSource): (Result<FileDict>, FileDict)
    requires |shared.datasets| > 0 && FileLines(src.lines)
  {
    match FileKindOf(extension)
    case Err(e) => (Err(e), shared)
    case Ok(TextFile) =>
      if src.loaded.Err? then (Err(src.loaded.error), shared)
      else TextFileRecord(shared, TextDataset(src.loaded.value), CommentLines(src.lines))
    case Ok(YamlFile) =>
      if src.parsed.Err? then (Err(src.parsed.error), shared)
      else YamlFileRecord(shared, src.parsed.value, CommentLines(src.lines))
  }

  /** However a read ends, the default record keeps one dataset and its shape, so the next
      read can again store its text dataset at index 0. */
  lemma ReadFileKeepsDefault(shared: FileDict, extension: string, src: FileSource)
    requires |shared.datasets| == 1 && FileDictShaped(shared) && FileLines(src.lines)
    ensures var after := ReadFileRecord(shared, extension, src).1;
      |after.datasets| == 1 && FileDictShaped(after) && after.filePath == shared.filePath
  {
    if FileKindOf(extension) == Ok(TextFile) && src.loaded.Ok? {
      TextReadKeepsDefault(shared, TextDataset(src.loaded.value), CommentLines(src.lines));
    } else if FileKindOf(extension) == Ok(YamlFile) && src.parsed.Ok? {
      var yaml := src.parsed.value;
      ScanYamlKeepsMetaKeys(shared, yaml, KeysOf(yaml));
    }
  }

  lemma TextReadKeepsDefault(shared: FileDict, dataset: DataDict, header: seq<string>)
    requires |shared.datasets| == 1 && FileDictShaped(shared) && DataDictShaped(dataset)
    ensures var after := TextFileRecord(shared, dataset, header).1;
      |after.datasets| == 1 && FileDictShaped(after) && after.filePath == shared.filePath
  {
    var f0 := shared.(datasets := shared.datasets[0 := dataset]);
    assert f0.datasets == [dataset];
    assert FileDictShaped(f0);
    ScanHeaderKeepsShape(f0, "", header);
    ScanHeaderKeepsPath(f0, "", header);
  }

  lemma {:induction false} ScanHeaderKeepsPath(f: FileDict, comment: string, lines: seq<string>)
    requires |f.datasets| > 0
    ensures ScanHeader(f, comment, lines).record.filePath == f.filePath
    decreases |lines|
  {
    if |lines| > 0 {
      match HeaderLine(f, comment, lines[0])
      case Err(e) =>
      case Ok((f1, c1)) =>
        ScanHeaderKeepsPath(f1, c1, lines[1..]);
    }
  }

  /** A text file read to the end yields its one dataset, with the header's values in place
      of the blanks. */
  lemma TextReadShape(shared: FileDict, table: Table, header: seq<string>)
    requires |shared.datasets| == 1 && FileDictShaped(shared)
    requires TextFileRecord(shared, TextDataset(table), header).0.Ok?
    ensures var r := TextFileRecord(shared, TextDataset(table), header).0.value;
      |r.datasets| == 1 && FileDictShaped(r) && r.datasets[0].data == Loaded(table)
  {
    var f0 := shared.(datasets := shared.datasets[0 := TextDataset(table)]);
    assert f0.datasets == [TextDataset(table)];
    assert FileDictShaped(f0);
    ScanHeaderKeepsShape(f0, "", header);
    ScanHeaderData(f0, "", header);
  }

  /** The header never touches the data of the dataset. */
  lemma {:induction false} ScanHeaderData(f: FileDict, comment: string, lines: seq<string>)
    requires |f.datasets| > 0
    ensures ScanHeader(f, comment, lines).record.datasets[0].data == f.datasets[0].data
    decreases |lines|
  {
    if |lines| > 0 {
      match HeaderLine(f, comment, lines[0])
      case Err(e) =>
      case Ok((f1, c1)) =>
        ScanHeaderData(f1, c1, lines[1..]);
    }
  }

  /** The type of a dataset decides where its data comes from: coefficients for formulas and
      models, the table for tabulated data; any other type is a KeyError. */
  lemma DatasetData(entries: seq<Entry>, t: string)
    requires Lookup(entries, "type") == Some(Text(t))
    ensures var r := DatasetOf(Mapping(entries));
      IsCoefficientType(LStrip(t)) ==>
        (r.Ok? <==> Lookup(entries, "coefficients").Some?) &&
        (r.Ok? ==> r.value.data == Lookup(entries, "coefficients").value)
    ensures var r := DatasetOf(Mapping(entries));
      !IsCoefficientType(LStrip(t)) && StartsWith(LStrip(t), "tabulated") ==>
        (r.Ok? <==> Lookup(entries, "data").Some?) &&
        (r.Ok? ==> r.value.data == Lookup(entries, "data").value)
    ensures var r := DatasetOf(Mapping(entries));
      !IsCoefficientType(LStrip(t)) && !StartsWith(LStrip(t), "tabulated") ==> r == Err(KeyError)
  {
  }

  /** `wavelength_range`, one of the aliases, names the ValidRange key. */
  lemma WavelengthRangeNamesValidRange(d: DataDict, v: Value)
    ensures NameDatasetKeys(d, [Entry("wavelength_range", v)]).metaData == d.metaData["ValidRange" := v]
  {
    var kwd := Upper("wavelength_range");
    assert kwd[0] == 'W';
    assert Upper("validRange")[0] == 'V' && Upper("range")[0] == 'R' && Upper("spectra_range")[0] == 'S';
    assert StartsWith(kwd, Upper(DatasetAliases[3].1));
    assert FirstAlias(kwd, DatasetAliases) == Some("ValidRange");
  }
}
