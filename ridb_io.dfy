/** The material file reader of src/refractive_index_database/io.py. */
module RefractiveIndexIo {
  import opened Outcomes
  import opened Tables
  import opened MaterialFiles

  /** `Reader` of src/refractive_index_database/io.py. Every read starts from `dict(default_file_dict)`, a
      shallow copy, so the reads write through to the default record as `ReadFileRecord`
      describes. */
  class Reader {
    const filePath: string
    const extension: string
    var defaultFileDict: FileDict

    /** The default record keeps its one dataset, its keys and its path. */
    predicate Valid()
      reads this
    {
      |defaultFileDict.datasets| == 1 && FileDictShaped(defaultFileDict) &&
      defaultFileDict.filePath == filePath
    }

    constructor (filePath: string)
      ensures this.filePath == filePath && extension == Splitext(filePath).1
      ensures defaultFileDict == DefaultFileDict(filePath) && Valid()
    {
      this.filePath := filePath;
      extension := Splitext(filePath).1;
      defaultFileDict := DefaultFileDict(filePath);
    }

    /** `read_file`: dispatch on the extension, then read the text or the YAML record. */
    method ReadFile(src: FileSource) returns (r: Result<FileDict>)
      requires Valid() && FileLines(src.lines)
      modifies this
      ensures Valid()
      ensures (r, defaultFileDict) == ReadFileRecord(old(defaultFileDict), extension, src)
    {
      ReadFileKeepsDefault(defaultFileDict, extension, src);
      var kind :- FileKindOf(extension);
      if kind == TextFile {
        var table :- src.loaded;
        var dataset := TextDataset(table);
        var comment := ReadTextComment(src.lines);
        var copy := defaultFileDict.(datasets := defaultFileDict.datasets[0 := dataset]);
        var scan := ApplyHeader(copy, comment);
        defaultFileDict := scan.record.(metaComment := defaultFileDict.metaComment);
        if scan.error.Some? {
          return Err(scan.error.value);
        }
        r := Ok(if scan.comment != "" then scan.record.(metaComment := Text(scan.comment)) else scan.record);
      } else {
        var yaml :- src.parsed;
        var record, error := ProcessYaml(defaultFileDict, yaml);
        defaultFileDict := defaultFileDict.(metaData := record.metaData);
        if error.Some? {
          return Err(error.value);
        }
        var comment := ReadTextComment(src.lines);
        r := Ok(record.(metaComment := CommentValue(comment)));
      }
    }
  }
}
