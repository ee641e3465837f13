# Dispersion material model in Dafny

This project models the core of the `dispersion` / `refractive_index_database` Python
package, which describes the optical constants of a material:

- **Tabulated data** (`validate_table`, `fix_table`, `process_tabulated_data`): a table of
  spectral values and refractive indices, parsed from text and checked for a strictly increasing
  first column. `fix_table` drops the rows that step back, but `process_tabulated_data` as
  written never calls it (first row of "## Findings").
- **Spectral evaluators** (`Constant`, `Interpolation`, `Extrapolation` and the eleven `Model`
  subclasses of `spectral_data.py`): each has a valid range in a spectrum type and unit, refuses
  spectra outside it with `ValueError`, and answers a value per spectral point (except, as
  written, a model whose formula has no term that reads the coordinates: third row of
  "## Findings"). The dispersion formulas are modelled with their `rhs +=` loops and their
  coefficient indexing.
- **`MaterialData`**: a material made from exactly one of a file, a fixed `n`, `nk`, `eps_r` or
  `eps`, or a model dictionary. It holds a quantity name (`nk` or `eps`) and the evaluators of the
  real, imaginary and complex parts, and answers refractive index and permittivity.
- **Material file readers** (`Reader` of `refractive_index_database/io.py` and of
  `dispersion/io.py`): extension dispatch, the `#` comment header with its `key: value` lines,
  and the normalisation of a parsed YAML mapping into the internal record.

Modules: `Outcomes` (exceptions as a `Result`), `Strings`, `Numbers` (range bounds, complex
numbers, numpy scalars and vectors with broadcasting), `Tables`, `Formulas`, `Spectra` (the parts
of `Spectrum` the core relies on), `SpectralData`, `MaterialFiles` (the record both readers
share), `RefractiveIndexIo` and `DispersionIo` (the two `Reader` classes), `MaterialArgs`
(`_parse_args`), `Materials` (`MaterialData`).

Foreign operations are parameters. These are numpy's square root, power and complex square
root, `float()` parsing, `interp1d` and `splev` lookups, the points of `np.geomspace`, and the
unit conversion and name canonicalisation of `Spectrum`. They are gathered in the records
`Arith`, `Units`, `Env` and `Context`. Reading a file, `np.loadtxt` and the YAML parser are
replaced by their results, as a `FileSource`. For `np.loadtxt` that is the rows it reads; its
squeezing of a single row or column into a one-dimensional array is modelled.

Code that changes state in place is modelled by methods:

- the `MaterialData` methods, over a class whose fields are the object's attributes;
- `Spectrum.convert_to(..., in_place=True)`;
- `validate_extrap_val` on an `array`;
- `Reader.read_file`, which writes through its shallow copy into the default record.

Each method's `ensures` ties its result and new state to a pure function. The lemmas state the
properties of those functions.

The operations model the program as written, including the four defects listed under
"## Findings". The corrected definitions appear only as the corrected members of that table,
with the property the authors evidently intended proved about each.

## Model

| member | source | states |
|---|---|---|
| Tables.ValidateTable | src/refractive_index_database/material_data.py:23-28 | a table with columns yields a numpy boolean that is true exactly when the first column strictly increases; a table without columns cannot be indexed |
| Tables.Repaired | src/refractive_index_database/material_data.py:31-44 | the repair succeeds exactly on a non-empty table with columns and keeps the column count |
| Tables.FixTable | src/refractive_index_database/material_data.py:31-44 | the filtering loop (row 0 kept, a row kept only when its first entry exceeds the last kept one) computes `Repaired` |
| Tables.FixedIsIncreasing | src/refractive_index_database/material_data.py:23-44 | the repaired rows have the table's width, strictly increase in the first column, and pass `validate_table` |
| Tables.FixedIsSubsequence | src/refractive_index_database/material_data.py:31-44 | the repair keeps row 0 and only deletes rows |
| Tables.FixedIdentityWhenValid | src/refractive_index_database/material_data.py:23-44 | a table that already increases comes back unchanged |
| Tables.FixedDropsStepBack | src/refractive_index_database/material_data.py:36-42 | on a concrete table the row that steps back is dropped and the others kept |
| Tables.Leading | src/refractive_index_database/material_data.py:58-60 | the lines parsed are a prefix of the lines, none blank, and the line after them (if any) is blank |
| Tables.ParseRow | src/refractive_index_database/material_data.py:61-63 | a row parses exactly when every word parses, and then holds each word's number in order |
| Tables.ParseRows | src/refractive_index_database/material_data.py:58-64 | the rows parse exactly when every line's words parse, one row per line, each the parse of that line |
| Tables.ToArray | src/refractive_index_database/material_data.py:65 | `np.array` of rows succeeds exactly when the rows have equal length, and keeps them |
| Tables.ParseTable | src/refractive_index_database/material_data.py:55-65 | the string branch splits on newlines, parses up to the first blank line, and builds the array |
| Tables.ParseLines | src/refractive_index_database/material_data.py:57-64 | the outer append loop computes the parse of the leading non-blank lines |
| Tables.ParseLine | src/refractive_index_database/material_data.py:61-63 | the inner append loop computes the parse of one line's words |
| Tables.AsWrittenNeverRepairs | src/refractive_index_database/material_data.py:70-71 | as written, whatever comes back is the unrepaired numeric table |
| Tables.AsWrittenKeepsStepBack | src/refractive_index_database/material_data.py:70-71 | as written, an unsorted array comes back unsorted |
| Tables.ProcessedIsValid | src/refractive_index_database/material_data.py:47-72 | with the intended guard a table is returned exactly when the numeric table exists and has columns; it then strictly increases, passes `validate_table`, is a subsequence of the numeric table, and equals it when that already increases |
| Tables.AsWrittenDiffersOnUnsorted | src/refractive_index_database/material_data.py:67-72 | the program as written and the corrected one give different results exactly on a numeric table with columns whose first column does not strictly increase |
| Tables.ProcessTabulatedData | src/refractive_index_database/material_data.py:47-72 | computes `ProcessedAsWritten`: strings parsed up to the first blank line, two-dimensional arrays passed through, arrays of fewer dimensions an IndexError at validation, other inputs a TypeError; the validated table comes back unrepaired, since the `is False` guard never holds |
| Strings.Upper | src/refractive_index_database/io.py:123 | same length, each character upper-cased |
| Strings.Split | src/refractive_index_database/io.py:119 | a split on `:` has at least one piece and no piece holds the separator |
| Strings.JoinSplit | src/refractive_index_database/io.py:119 | joining the pieces with the separator gives back the line |
| Strings.SplitCount | src/refractive_index_database/io.py:119-142 | the number of pieces is one more than the number of separators, which is what the header loop branches on |
| Strings.Words | src/refractive_index_database/material_data.py:62 | the words are non-empty and free of whitespace |
| Strings.WordsKeepText | src/refractive_index_database/material_data.py:62 | concatenated, the words are the line without its whitespace |
| Strings.BlankIffNoWords | src/refractive_index_database/material_data.py:59 | a line is empty or whitespace-only exactly when it has no words |
| Strings.LStrip | src/refractive_index_database/io.py:124 | the stripped value does not start with whitespace and is no longer than the input |
| Strings.LStripDropsBlankPrefix | src/refractive_index_database/io.py:124 | `lstrip` removes a whitespace prefix and keeps the rest |
| Strings.RStripNewlines | src/refractive_index_database/io.py:99 | the result is a prefix of the line that does not end in a line break, and all that was removed are line breaks |
| Numbers.MinOf | src/refractive_index_database/spectral_data.py:85 | `np.min` is an element that no element undercuts |
| Numbers.MaxOf | src/refractive_index_database/spectral_data.py:86 | `np.max` is an element that no element exceeds |
| Numbers.Square | src/refractive_index_database/material_data.py:504-505 | complex squaring as real-pair arithmetic |
| Numbers.WithImaginary | src/refractive_index_database/material_data.py:460-463 | `a + 1j * b` of two real values is the complex number (a, b) |
| Numbers.Zip | src/refractive_index_database/spectral_data.py:255-258 | a broadcast succeeds exactly on compatible shapes (else ValueError), is scalar only for two scalars, and has the broadcast length |
| Numbers.ZipAt | src/refractive_index_database/spectral_data.py:255-258 | each element of a broadcast combines the operand elements it reads |
| Numbers.LiftAt | src/refractive_index_database/spectral_data.py:258 | an elementwise operation applies the function to each element |
| Spectra.Converted | src/refractive_index_database/spectral_data.py:183 | `convert_to` keeps the shape and sets the target frame |
| Spectra.Contains | src/refractive_index_database/spectral_data.py:69 | `contains` succeeds exactly when every converted value lies within the range's least and greatest bound, else ValueError |
| Spectra.Spectrum.ConvertInPlace | src/refractive_index_database/spectral_data.py:155 | the in-place conversion leaves the spectrum in the converted state |
| SpectralData.DefaultConstant | src/refractive_index_database/spectral_data.py:59-65 | a Constant's default range is (0, inf) in metres of wavelength |
| SpectralData.NewInterpolation | src/refractive_index_database/spectral_data.py:163-177 | no first column or no second column is an IndexError, no rows a ValueError from `np.min`, one row or a repeated first-column value a ValueError from `interp1d`; otherwise the range is the least and greatest first-column value, and every table point lies within it |
| SpectralData.NewModel | src/refractive_index_database/spectral_data.py:189-210 | a model is built exactly when its canonical frame equals the one the model requires, else ValueError |
| SpectralData.RequiredTable | src/refractive_index_database/spectral_data.py:243-247 | a model outputs `eps` exactly when it needs energies, and exactly for the two Drude models; every other model outputs `n` |
| SpectralData.PreprocessAsWritten | src/refractive_index_database/spectral_data.py:222-235 | as written, `ones` is the scalar 1.0 whenever the input is in range |
| SpectralData.Preprocess | src/refractive_index_database/spectral_data.py:222-235 | as intended: range check (ValueError), the input converted into the model's frame, `ones` and the converted values shaped like the input |
| SpectralData.Evaluate | src/refractive_index_database/spectral_data.py:67-184 | the `evaluate` of every evaluator computes `EvaluateOn`, models with the scalar `ones` of `preprocess` as written, including the caller's spectrum left converted by an Extrapolation |
| SpectralData.ValidateExtrapVal | src/refractive_index_database/spectral_data.py:123-138 | the method updates the array as `ExtendRange` says, and leaves it unchanged when it raises |
| SpectralData.ExtendRangeRefusesInside | src/refractive_index_database/spectral_data.py:128-137 | a value is refused, with ValueError, exactly when it lies within the range |
| SpectralData.ExtendRangeWidens | src/refractive_index_database/spectral_data.py:128-131 | an accepted value widens an ordered range to contain it, keeping it ordered |
| SpectralData.ExtendAllCovers | src/refractive_index_database/spectral_data.py:112-113 | after the loop the range still covers the old one and contains every value applied |
| SpectralData.OutOfRangeRefused | src/refractive_index_database/spectral_data.py:69 | Constant, Interpolation and Model leave the spectrum alone and refuse it with ValueError outside their range; Constant and Interpolation answer inside it |
| SpectralData.ConstantBroadcasts | src/refractive_index_database/spectral_data.py:67-72 | a Constant answers its constant once per input value, or once for a scalar |
| SpectralData.InterpolationLooksUp | src/refractive_index_database/spectral_data.py:179-184 | an Interpolation answers the lookup of each value converted into its own frame |
| SpectralData.ModelAnswers | src/refractive_index_database/spectral_data.py:217-235 | a model in range answers exactly when its parameter vector has a length its formula can index, else IndexError; the answer has the input's shape when the formula has a term that reads the coordinates, and is a scalar when it has none |
| SpectralData.AsWrittenPreprocessShrinks | src/refractive_index_database/spectral_data.py:231-234 | as written, a one-coefficient Cauchy model answers a two-value spectrum with one value; with `ones` shaped like the input it answers two |
| SpectralData.ExtrapolationDelegates | src/refractive_index_database/spectral_data.py:150-153 | inside the base range an Extrapolation answers as its base does |
| SpectralData.ExtrapolationFallsBack | src/refractive_index_database/spectral_data.py:154-157 | outside the base range it converts the caller's spectrum in place and answers the spline lookup or ValueError by its own range |
| SpectralData.TooManyValuesRaiseNameError | src/refractive_index_database/spectral_data.py:109-111 | three values raise NameError as written and ValueError as intended |
| SpectralData.ExtrapSpectrumDiffersOnTooMany | src/refractive_index_database/spectral_data.py:101-121 | the program as written and the corrected one differ exactly on more than two extrapolation values, and convert the caller's spectrum alike |
| SpectralData.ExtrapSpectrumCovers | src/refractive_index_database/spectral_data.py:101-121 | the new range is ordered, covers the base range and every value of the converted spectrum, and the caller's spectrum is left in the base frame |
| SpectralData.GetExtrapSpectrum | src/refractive_index_database/spectral_data.py:94-121 | converts the caller's spectrum into the base frame in place and returns the base range extended by each of its values, or NameError for more than two values, as `ExtrapSpectrumAsWritten` |
| SpectralData.NewExtrapolation | src/refractive_index_database/spectral_data.py:79-92 | the constructor computes `Extrapolated`: the base range extended in the base frame, then the base evaluated on its suggested spectrum, whose error is raised |
| SpectralData.Suggested | src/refractive_index_database/spectral_data.py:41-49 | `suggest_spectrum` is a vector in the evaluator's frame, and a ValueError exactly when the range is empty or its least or greatest value is zero |
| SpectralData.ExtrapolationCovers | src/refractive_index_database/spectral_data.py:79-92 | an Extrapolation's range runs from the least to the greatest extended value, covers the base range and contains every converted extrapolation value |
| SpectralData.ExtrapolationSamplesBase | src/refractive_index_database/spectral_data.py:141-146 | `extrapolate_data` makes the build fail with ValueError on a range bounded by zero, and otherwise exactly when the base fails on its samples; a Model base in range fails exactly when its formula cannot index its parameters, with IndexError |
| SpectralData.DefaultConstantNotExtrapolated | src/refractive_index_database/spectral_data.py:41-49 | a Constant with its default range (0, inf) cannot be extrapolated |
| Formulas.Coef | src/refractive_index_database/spectral_data.py:255 | `model_parameters[i]` exists exactly for `i < len`, else IndexError |
| Formulas.Coefs | src/refractive_index_database/spectral_data.py:327-337 | consecutive coefficients exist exactly when the last one does |
| Formulas.AccumulateTerms | src/refractive_index_database/spectral_data.py:255-258 | the `rhs +=` loop computes `Accumulate` |
| Formulas.FailurePersists | src/refractive_index_database/spectral_data.py:255-258 | once an iteration raises, every longer loop raises the same error |
| Formulas.AccumulateInBounds | src/refractive_index_database/spectral_data.py:255-258 | the loop succeeds exactly when its last term's coefficients exist, else IndexError |
| Formulas.AccumulateShape | src/refractive_index_database/spectral_data.py:255-258 | the loop's result has the start value's shape or the broadcast shape with the coordinates |
| Formulas.AccumulateValueAt | src/refractive_index_database/spectral_data.py:255-258 | each element is the start value plus the series of terms at that coordinate |
| Formulas.EvaluateFormula | src/refractive_index_database/spectral_data.py:250-503 | the eleven `evaluate` bodies with their loops compute `FormulaValue` |
| Formulas.RefractiveIndexInfoCounts | src/refractive_index_database/spectral_data.py:327-337 | up to two pole terms and `(n - 8) / 2` power terms from index 9 |
| Formulas.FormulaInBounds | src/refractive_index_database/spectral_data.py:250-503 | a formula raises IndexError exactly for the parameter lengths it cannot index: even lengths for the two-coefficient models; fewer than 6, 4, 2 or 3 coefficients for Herzberger and Exotic, Retro, Drude and DrudeLorentz; and for RefractiveIndexInfo any length other than 1, 5 or an odd one of at least 9 |
| Formulas.FormulaShape | src/refractive_index_database/spectral_data.py:250-503 | a formula answers in the shape of `ones` when no term runs, otherwise in the broadcast shape with the coordinates |
| Formulas.FormulaIsReal | src/refractive_index_database/spectral_data.py:250-463 | the nine refractive-index models answer real values |
| Formulas.PairFormulaValueAt | src/refractive_index_database/spectral_data.py:250-384 | each value of a two-coefficient model is its finishing step applied to `p[0]` plus the series of its terms |
| Formulas.ScalarOnesShrinkVector | src/refractive_index_database/spectral_data.py:231-234 | with a scalar `ones`, Cauchy with one coefficient answers one value for two coordinates |
| Formulas.FormulaKeepsShape | src/refractive_index_database/spectral_data.py:222-235 | with `ones` shaped like the coordinates every formula answers in their shape |
| MaterialFiles.Lookup | src/refractive_index_database/io.py:164 | a key is found exactly when the mapping holds it, with its value |
| MaterialFiles.FirstPrefix | src/refractive_index_database/io.py:126-136 | the key chosen is one whose upper-cased name begins the keyword; none is chosen when no key does |
| MaterialFiles.OneFileKeyMatches | src/refractive_index_database/io.py:33-34 | no two file keys both begin a keyword, so the set order cannot matter |
| MaterialFiles.OneDatasetKeyMatches | src/refractive_index_database/io.py:36-37 | no two dataset keys both begin a keyword |
| MaterialFiles.OneAliasMatches | src/refractive_index_database/io.py:183-215 | a YAML dataset keyword selects at most one dataset key through the names and aliases |
| MaterialFiles.DefaultDataDict | src/refractive_index_database/io.py:56-62 | the default dataset holds the four dataset keys blank and no data |
| MaterialFiles.DefaultFileDict | src/refractive_index_database/io.py:46-54 | the default record holds the five file keys blank, one default dataset, empty specification and comment, and the path |
| MaterialFiles.Splitext | src/refractive_index_database/io.py:41 | the path is root plus extension, and the extension is empty or starts with the last dot of the last path component |
| MaterialFiles.SplitextExamples | src/refractive_index_database/io.py:41 | `Ag.yml` splits into `Ag` and `.yml`, while `data/.yml` has no extension |
| MaterialFiles.FileKindOf | src/refractive_index_database/io.py:64-73 | `.txt` and `.csv` read text, `.yml` reads YAML, any other extension is a ValueError |
| MaterialFiles.CommentLines | src/refractive_index_database/io.py:90-102 | the comment is the leading run of `#` lines, each without its `#` and line breaks |
| MaterialFiles.ReadTextComment | src/refractive_index_database/io.py:90-102 | the loop computes `CommentLines` |
| MaterialFiles.HeaderSlot | src/refractive_index_database/io.py:123-139 | file keys are tried before dataset keys, the key chosen begins the upper-cased keyword, and an unmatched keyword is dropped |
| MaterialFiles.ApplyHeader | src/refractive_index_database/io.py:117-142 | the header loop computes `ScanHeader` |
| MaterialFiles.ScanHeaderFails | src/refractive_index_database/io.py:140-142 | the header fails exactly when some line holds `:` twice or more, and then with RuntimeError |
| MaterialFiles.ScanHeaderComment | src/refractive_index_database/io.py:120-121 | a header read to the end gathers the lines without `:` as its comment |
| MaterialFiles.ScanHeaderKeepsShape | src/refractive_index_database/io.py:126-136 | the header writes only known keys, so the record keeps its key sets |
| MaterialFiles.TextDataset | src/refractive_index_database/io.py:75-88 | a text file's dataset is `tabulated nk` with the array as `np.loadtxt` returns it |
| MaterialFiles.Loaded | src/refractive_index_database/io.py:78-82 | `np.loadtxt` gives a two-dimensional array exactly when the file has several rows and several columns; one row or one column gives its values as an array of fewer dimensions |
| MaterialFiles.DatasetOf | src/refractive_index_database/io.py:187-215 | one YAML dataset: `formula`/`model` take `coefficients`, `tabulated` takes `data`, other types a KeyError |
| MaterialFiles.DatasetList | src/refractive_index_database/io.py:187-218 | the loop yields one dataset per item, or the first error |
| MaterialFiles.Datasets | src/refractive_index_database/io.py:182-218 | the loop runs over whatever DATA holds, as Python iterates it |
| MaterialFiles.ProcessDatasets | src/refractive_index_database/io.py:182-218 | the appending loop computes `Datasets` |
| MaterialFiles.YamlEntry | src/refractive_index_database/io.py:162-179 | a keyword whose upper-cased form is missing is a KeyError; DATA sets the datasets read from its value or raises their error; SPECS sets the specification; a keyword beginning with a file key's name sets that key; any other keyword leaves the record unchanged |
| MaterialFiles.FirstPrefixNames | src/refractive_index_database/io.py:173-177 | the file key a keyword begins with is the one the loop over the file keys stops at |
| MaterialFiles.ProcessYaml | src/refractive_index_database/io.py:161-180 | the loop over the mapping computes `ScanYaml` |
| MaterialFiles.ScanYamlSpecsAndData | src/refractive_index_database/io.py:162-171 | a mapping read to the end holds the SPECS value as the specification and the datasets read from the DATA value, whenever a keyword selects them; otherwise the record keeps its own |
| MaterialFiles.ScanYamlMeta | src/refractive_index_database/io.py:162-177 | a mapping read to the end holds, under each file key, the value of the last keyword that names it, and the record's own value when none does |
| MaterialFiles.ScanYamlNeedsUpperKeys | src/refractive_index_database/io.py:162-164 | a mapping read to the end has every keyword's upper-cased form among its keys |
| MaterialFiles.ScanYamlKeepsMetaKeys | src/refractive_index_database/io.py:172-177 | the YAML loop writes only file keys into the meta data |
| MaterialFiles.CommentValue | src/refractive_index_database/io.py:158 | the YAML record stores the comment as the list of its lines |
| MaterialFiles.ReadFileKeepsDefault | src/refractive_index_database/io.py:115-116 | however a read ends, the default record keeps one dataset, its key sets and its path |
| MaterialFiles.TextReadShape | src/refractive_index_database/io.py:104-145 | a text read to the end yields one dataset holding the loaded array, with the header's values in place of the blanks |
| MaterialFiles.ScanHeaderData | src/refractive_index_database/io.py:117-142 | the header never touches the dataset's data |
| MaterialFiles.DatasetData | src/refractive_index_database/io.py:190-198 | the data type decides whether the data comes from `coefficients` or `data` |
| MaterialFiles.FirstAliasNames | src/refractive_index_database/io.py:200-215 | the dataset key the alias loop stores a keyword under is exactly the one whose name the keyword begins with |
| MaterialFiles.NameDatasetKeysRoutes | src/refractive_index_database/io.py:183-215 | every dataset key holds the value of the last keyword that names it by any of its names (ValidRange by `validRange`, `range`, `spectra_range`, `wavelength_range`), and keeps its value when no keyword does |
| MaterialFiles.WavelengthRangeNamesValidRange | src/refractive_index_database/io.py:183-184 | `wavelength_range` is stored under ValidRange |
| RefractiveIndexIo.Reader.constructor | src/refractive_index_database/io.py:39-43 | path, extension and default record as `__init__` sets them |
| RefractiveIndexIo.Reader.ReadFile | src/refractive_index_database/io.py:64-159 | `read_file` computes `ReadFileRecord`, result and default record alike, and keeps the reader valid |
| DispersionIo.Reader.constructor | src/dispersion/io.py:151-155 | path, extension and default record as `__init__` sets them |
| DispersionIo.Reader.ReadFile | src/dispersion/io.py:177-278 | `read_file` computes `ReadFileRecord`, result and default record alike, and keeps the reader valid |
| MaterialArgs.ExclusiveCountZero | src/refractive_index_database/material_data.py:131-149 | the count is zero exactly when no exclusive input is given |
| MaterialArgs.ExclusiveCountOne | src/refractive_index_database/material_data.py:131-149 | the count is one exactly when one exclusive input is given and no other |
| MaterialArgs.InputsOf | src/refractive_index_database/material_data.py:131-149 | the inputs map holds exactly the names passed |
| MaterialArgs.CheckedTypes | src/refractive_index_database/material_data.py:174-190 | `_check_type` succeeds exactly when every given argument of the group has an admitted type (else TypeError), and adds None for absent names |
| MaterialArgs.CheckType | src/refractive_index_database/material_data.py:174-190 | the loop computes `CheckedTypes` |
| MaterialArgs.WithDefaults | src/refractive_index_database/material_data.py:151-157 | a missing spectrum type or unit becomes `wavelength` or `nanometer`; nothing else changes |
| MaterialArgs.TypeChecked | src/refractive_index_database/material_data.py:151-170 | the four checks pass exactly when every one of the eight checked arguments that is given has a type its group admits; otherwise TypeError; on success every name is present and the frame values are strings |
| MaterialArgs.CheckedGroups | src/refractive_index_database/material_data.py:151-190 | the arguments are well typed exactly when each of the four `_check_type` calls passes on what the previous ones leave |
| MaterialArgs.TypeCheckedKeeps | src/refractive_index_database/material_data.py:151-170 | the checks keep every exclusive input as passed, with its group's type |
| MaterialArgs.ParsedArgs | src/refractive_index_database/material_data.py:127-171 | no exclusive input, or more than one, is a ValueError; with exactly one, the parse succeeds exactly when the arguments are well typed, and fails with TypeError otherwise |
| MaterialArgs.ParseArgs | src/refractive_index_database/material_data.py:127-171 | the method computes `ParsedArgs` |
| MaterialArgs.CollectArgs | src/refractive_index_database/material_data.py:131-149 | the counting loop computes the count and the inputs map |
| MaterialArgs.ParsedArgsFrame | src/refractive_index_database/material_data.py:151-157 | a parse keeps the spectrum type and unit passed, or takes the defaults |
| MaterialArgs.ParsedArgsHold | src/refractive_index_database/material_data.py:131-170 | a parse holds an exclusive input exactly when it was given |
| MaterialArgs.ParsedArgsHoldOneSource | src/refractive_index_database/material_data.py:131-149 | a successful parse holds exactly one of the six inputs |
| Materials.Completed | src/refractive_index_database/material_data.py:193-201 | missing real and imaginary parts become constant zeros; present parts, the name and the complex part are kept |
| Materials.FixedValueSlots | src/refractive_index_database/material_data.py:232-254 | a fixed input sets the name `nk` for `n`/`nk` and `eps` for `eps_r`/`eps`; none given is a RuntimeError |
| Materials.FixedValueEvaluates | src/refractive_index_database/material_data.py:232-254 | a material from a fixed value answers that value everywhere in range (`fixed_n=1.0` gives 1+0i) |
| Materials.ModelNamedInverse | src/refractive_index_database/material_data.py:305-316 | the class registry finds a model exactly by its class name |
| Materials.MethodId | src/refractive_index_database/material_data.py:421-430 | formula ids 1 to 9 name models, any other id a KeyError |
| Materials.MethodIdsNameModels | src/refractive_index_database/material_data.py:421-430 | each id names one of the nine refractive-index models |
| Materials.OutputTarget | src/refractive_index_database/material_data.py:283-302 | `n`/`k`/`nk` set name `nk` and `epsr`/`epsi`/`eps` name `eps`, into the real, imaginary or complex part; other outputs a ValueError |
| Materials.ModelDictOutcome | src/refractive_index_database/material_data.py:256-302 | a model dictionary is accepted exactly when it names a model, has parameters and range, and its frame is the required one; the model then sets the real `nk` part, or the complex `eps` part for Drude models, and the frame defaults |
| Materials.Truthy | src/refractive_index_database/material_data.py:348-353 | Python truthiness of a record value; an array of several elements is a ValueError |
| Materials.DataTypeOf | src/refractive_index_database/material_data.py:335 | the data type splits into exactly two words, else KeyError, AttributeError or ValueError |
| Materials.TabulatedArraysAsRead | src/refractive_index_database/material_data.py:337-339 | a two-dimensional array with columns is stored unrepaired; an array of fewer dimensions is an IndexError that changes nothing |
| Materials.Columns | src/refractive_index_database/material_data.py:357-358 | `processed[:, [0, j]]` exists exactly for `j` below the width (else IndexError) and pairs the first column with column `j` |
| Materials.SpecDataFromTable | src/refractive_index_database/material_data.py:368-382 | one row with two columns gives a Constant valid only at its spectral value; several rows an Interpolation, refused with ValueError when a first-column value repeats; every table point lies in the range |
| Materials.TabulatedNkCovers | src/refractive_index_database/material_data.py:347-382 | a tabulated `nk` dataset sets both parts, each valid at every spectral value of the table |
| Materials.Floats | src/refractive_index_database/material_data.py:398-408 | every word converted with `float`, or ValueError |
| Materials.ParseFloats | src/refractive_index_database/material_data.py:398-408 | the conversion loops compute `Floats` |
| Materials.FormulaKw | src/refractive_index_database/material_data.py:384-432 | a model dictionary built from a formula dataset has every field set: name, spectrum type, unit, range and parameters |
| Materials.FormulaDatasetsLoad | src/refractive_index_database/material_data.py:389-430 | as written, a well-formed `formula N` dataset reaches `_process_model_dict` with the model `method_ids` gives for N, the parsed range and coefficients, and the given spectrum type and unit or the defaults; N outside 1 to 9 is a KeyError and an identifier that is not an integer a ValueError, neither changing anything |
| Materials.AsWrittenRefusesModels | src/refractive_index_database/material_data.py:393 | as written every `model` dataset is a ValueError that changes nothing and stops the dataset loop |
| Materials.ModelDatasetsLoad | src/refractive_index_database/material_data.py:384-432 | corrected, a well-formed `model` dataset reaches `_process_model_dict` with its name, coefficients and range |
| Materials.CopiedMeta | src/refractive_index_database/material_data.py:323-329 | the meta data copied key by key, stopping with KeyError at a missing key |
| Materials.FileMetaCopied | src/refractive_index_database/material_data.py:318-329 | a record with every file key gives the material exactly those meta data, and the record is kept |
| Materials.DatasetsKeepMeta | src/refractive_index_database/material_data.py:334-364 | datasets change parts and defaults, never meta data or the file record |
| Materials.NkPermittivityAgree | src/refractive_index_database/material_data.py:435-506 | where the complex square root inverts squaring, the permittivity is the square of the refractive index, and both fail together |
| Materials.RemovedAbsorptionKeepsReal | src/refractive_index_database/material_data.py:203-207 | with the imaginary part a constant zero, the value held is the real part's value |
| Materials.MaximumValidRange | src/refractive_index_database/material_data.py:508-528 | names other than `nk` and `eps` are a RuntimeError |
| Materials.MaximumValidRangeIntersects | src/refractive_index_database/material_data.py:508-528 | a value lies in the maximum range exactly when it lies in the ranges of both parts |
| Materials.ExtrapolateWidens | src/refractive_index_database/material_data.py:209-230 | extrapolating a non-constant real part widens its range to cover the old one |
| Materials.InitialisedHoldsQuantity | src/refractive_index_database/material_data.py:93-125 | a constructed material has real and imaginary parts; without a file its name is `nk` or `eps` |
| Materials.ExtrapolatePart | src/refractive_index_database/material_data.py:221-227 | one pass of the loop over `real` and `imag` computes `ExtrapolatedPart`: a constant is kept, another part is wrapped by the Extrapolation constructor or its error is raised |
| Materials.MaterialData.constructor | src/refractive_index_database/material_data.py:99-113 | the attributes before the input is processed |
| Materials.MaterialData.New | src/refractive_index_database/material_data.py:93-125 | `MaterialData(**kwargs)` succeeds exactly when `Initialised` does, with the same error or state, tables unrepaired and `model` datasets refused as written |
| Materials.MaterialData.CompletePartialData | src/refractive_index_database/material_data.py:193-201 | the data become `Completed`; nothing else changes |
| Materials.MaterialData.RemoveAbsorption | src/refractive_index_database/material_data.py:203-207 | only the imaginary part changes, to a constant zero |
| Materials.MaterialData.Extrapolate | src/refractive_index_database/material_data.py:209-230 | a complex part is a NotImplementedError; otherwise the real part, then the imaginary part, is kept when constant and wrapped in an Extrapolation when not, whose construction can fail; the caller's spectrum as the wrapping leaves it; the other attributes unchanged |
| Materials.MaterialData.ProcessFixedValue | src/refractive_index_database/material_data.py:232-254 | the first fixed input given becomes constant real and imaginary parts under the name `nk` or `eps`; none given is a RuntimeError that changes nothing |
| Materials.MaterialData.ProcessModelDict | src/refractive_index_database/material_data.py:256-302 | a missing name is a KeyError and an unknown one a NameError; a given spectrum type or unit replaces the default; the model built is stored in the part its output selects, else its error is raised |
| Materials.MaterialData.ProcessFileData | src/refractive_index_database/material_data.py:318-364 | the record is kept, its five file keys copied into the meta data (KeyError for a missing one), then each dataset applied in order until one fails, as `FileDataApplied` |
| Materials.MaterialData.ProcessDataset | src/refractive_index_database/material_data.py:334-364 | one pass of the dataset loop: the data type splits into two words; `tabulated` data is processed as written and stored, `formula` and `model` data go to `_process_formula_data`, other types are a ValueError |
| Materials.MaterialData.ApplyTable | src/refractive_index_database/material_data.py:347-364 | a set spectrum type and unit of the dataset replace the defaults, then identifier `nk` stores columns 1 and 2 as the real and imaginary parts, `n` and `k` the table as one part |
| Materials.MaterialData.ProcessFormulaData | src/refractive_index_database/material_data.py:384-432 | as written only `formula` (and `mode`) datasets pass the type test and become a model dictionary (formula number or name, coefficients, range, frame) handed to `_process_model_dict`; other types, `model` included, a ValueError |
| Materials.MaterialData.EvaluateHeld | src/refractive_index_database/material_data.py:435-469 | names other than `nk` and `eps` are a ValueError; otherwise the value is the complex part's, or the real part's plus 1j times the imaginary part's |
| Materials.MaterialData.GetNkData | src/refractive_index_database/material_data.py:435-469 | the held value, square-rooted when the name is `eps` |
| Materials.MaterialData.GetPermittivity | src/refractive_index_database/material_data.py:471-506 | the held value, squared when the name is `nk` |

## Left out

- Reading files, `np.loadtxt` and the YAML parser are not modelled. Their results (the file's lines, the loaded array or its error, the parsed mapping or its error) are the inputs of `read_file`.
- Floating point is not modelled: numbers are `real`, and the transcendental operations (`np.sqrt`, `np.power`, the complex square root) are uninterpreted parameters.
- The regression values of the tests are not modelled, since they depend on floating point.
- `scipy`'s `interp1d` and `splev` are opaque lookups supplied as parameters, and so are the points `np.geomspace` places. How `splrep` fits the spline of `extrapolate_data` is not modelled.
- SpectralData.NewExtrapolation: does not model the errors of `splrep` itself: a spline order outside 1 to 5, or a sampled evaluation that is not a real vector as long as the samples (which a one-term model gives as written). The build succeeds once the base's evaluation on its samples does.
- SpectralData.Suggested: the points of `np.geomspace` are real numbers here. The non-finite points numpy places for an infinite bound are not represented; only the zero bound, which raises, is modelled.
- Strings.Upper: upper-cases ASCII letters only. Python's `upper()` also maps other letters, some of them to several characters.
- Strings.Words: splits on the ASCII whitespace and separator characters only. Python's `split()` also splits on the other Unicode whitespace.
- Strings.LStrip: strips the same characters as Strings.Words, not the other Unicode whitespace.
- `Spectrum` (spectrum.py) is not part of this model. Its conversion between units and its canonical type and unit names are parameters.
- Building a `Spectrum` from raw values in `get_nk_data` and `get_permittivity` is not modelled: both take the Spectrum object directly.
- The `options` attribute (`InterpOrder`) that `__init__` sets is not modelled, since no modelled method reads it. Interpolations use their default linear order, as `_spec_data_from_table` does.
- `_str_to_class` looks a name up with `getattr` on the `spectral_data` module. The model replaces this with a registry of the eleven model classes. Any other attribute of that module (such as `Constant`) is treated as a missing name (NameError) rather than a callable.
- Materials.Chosen: a meta-data spectrum type or unit that is truthy but not a string is a TypeError. The source would pass it on to the evaluators.
- Materials.MaximumValidRange: as in the source, it compares the raw range values of the real and imaginary parts without converting them into one frame.
- `print` output is not modelled (in `Extrapolation`, `print_reference`, `print_comment`).
- `utf8_to_ascii`, plotting and `get_sample_spectrum` are not modelled (sampling and display).
- The `Writer` classes of both `io.py` files and the YAML helper functions of `src/dispersion/io.py` are not modelled (file output).
- `material_database.py`, `config.py`, `jcm_interface.py` and the setup scripts are not part of this model (directory scans, configuration and user prompts).

## Findings

| source | as written | input that shows it | evidently intended | confidence | as-written member | corrected member |
|---|---|---|---|---|---|---|
| src/refractive_index_database/material_data.py:70 | `validate_table(table) is False` tests identity with the built-in `False`, but `validate_table` returns a numpy boolean, so the repair never runs | the array [[1,1],[2,2],[1.5,3],[3,4]] comes back with its step back | `not validate_table(table)`: unsorted tables are repaired | high, not executed | Tables.AsWrittenKeepsStepBack | Tables.ProcessedIsValid |
| src/refractive_index_database/material_data.py:393 | the data type is compared with `'mode'`, so every `model ...` dataset, which `_process_file_data` sends here, is refused | a dataset with DataType `model Drude` | compare with `'model'` | high, not executed | Materials.AsWrittenRefusesModels | Materials.ModelDatasetsLoad |
| src/refractive_index_database/spectral_data.py:231 | `isinstance(spectrum, ...)` tests the Spectrum object rather than its values, so `ones` is always the scalar 1.0 | Cauchy with parameters [1.5] on the wavelengths [0.5, 0.6] answers one value | test `spectrum.values`, so `ones` has the input's shape | high, not executed | SpectralData.AsWrittenPreprocessShrinks | Formulas.FormulaKeepsShape |
| src/refractive_index_database/spectral_data.py:109-111 | the error message for more than two values formats `extrap.values`, an undefined name, so a NameError is raised instead of the ValueError | an extended spectrum of three values | raise the ValueError | high, not executed | SpectralData.TooManyValuesRaiseNameError | SpectralData.ExtrapSpectrumCovers |
