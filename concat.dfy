/** `concatenate_dfs_on_disk` (bdms/merge.py): the files of one job are read in order and
    written into one output file, CSV or parquet by the output's extension. A file is a table
    (its columns and its rows) that loads, or a file that fails to load; the codecs themselves
    are not modelled. */
module Concat {
  import opened Wrappers
  import opened Text
  import opened Filenames

  type Row = seq<string>

  /** A data frame: its column names and its rows. */
  datatype Table = Table(columns: seq<string>, rows: seq<Row>)

  /** The disk: every existing path, with the table it loads as, or `None` when loading it
      raises (an unreadable or truncated file). */
  type Files = map<string, Option<Table>>

  const MissingFileMessage := "File does not exist."

  const InputFormatMessage := "Invalid file format. Choose from zip, csv, parquet."

  const OutputFormatMessage := "Invalid output format. Choose from csv, parquet."

  /** `p.split(".")[-1]`: the text after the last dot, or all of `p` without a dot. */
  function Extension(p: string): (r: string)
    ensures '.' !in r
    ensures r == p || ('.' in p && |r| < |p| && p == p[..|p| - |r| - 1] + "." + r)
  {
    if '.' in p then
      var k := LastIndexOf(p, '.');
      assert p == p[..k] + "." + p[k + 1..];
      p[k + 1..]
    else p
  }

  predicate AllExist(files: Files, paths: seq<string>) {
    forall i :: 0 <= i < |paths| ==> paths[i] in files
  }

  predicate AllInputFormats(paths: seq<string>) {
    forall i :: 0 <= i < |paths| ==> Extension(paths[i]) in ["zip", "csv", "parquet"]
  }

  predicate AllReadable(files: Files, paths: seq<string>)
    requires AllExist(files, paths)
  {
    forall i :: 0 <= i < |paths| ==> files[paths[i]].Some?
  }

  /** The rows of every path, in path order. */
  function AllRows(files: Files, paths: seq<string>): seq<Row>
    requires AllExist(files, paths) && AllReadable(files, paths)
  {
    if paths == [] then []
    else AllRows(files, paths[..|paths| - 1]) + files[paths[|paths| - 1]].value.rows
  }

  /** The CSV branch: the header comes with the first file only, then the rows of each file;
      `None` when a file fails to load. */
  function CsvWrite(files: Files, paths: seq<string>): Option<Table>
    requires AllExist(files, paths)
  {
    if paths == [] then Some(Table([], []))
    else
      var prev := CsvWrite(files, paths[..|paths| - 1]);
      var t := files[paths[|paths| - 1]];
      if prev.None? || t.None? then None
      else Some(Table(if |paths| == 1 then t.value.columns else prev.value.columns, prev.value.rows + t.value.rows))
  }

  /** The parquet branch: the writer takes the schema of `paths[0]` (an `IndexError` without
      paths) and refuses a table of another schema; `None` when anything raises. */
  function ParquetWrite(files: Files, paths: seq<string>): Option<Table>
    requires AllExist(files, paths)
  {
    if paths == [] then None
    else if |paths| == 1 then files[paths[0]]
    else
      var prev := ParquetWrite(files, paths[..|paths| - 1]);
      var t := files[paths[|paths| - 1]];
      if prev.None? || t.None? || t.value.columns != prev.value.columns then None
      else Some(Table(prev.value.columns, prev.value.rows + t.value.rows))
  }

  /** The disk after the call, or the `AssertionError` raised before the output is truncated.
      Opening the output truncates it; a failure inside the write block removes it. */
  function Concatenate(files: Files, paths: seq<string>, outputFile: string): Result<Files, Error> {
    if !AllExist(files, paths) then Failure(AssertionError(MissingFileMessage))
    else if !AllInputFormats(paths) then Failure(AssertionError(InputFormatMessage))
    else
      var storageFormat := Lower(Extension(outputFile));
      if storageFormat !in ["csv", "parquet"] then Failure(AssertionError(OutputFormatMessage))
      else
        var truncated := files[outputFile := None];
        var written := if storageFormat == "csv" then CsvWrite(truncated, paths) else ParquetWrite(truncated, paths);
        if written.Some? then Success(files[outputFile := written]) else Success(files - {outputFile})
  }

  // ---------------------------------------------------------------------------
  // The disk and the method

  class Disk {
    var files: Files

    constructor (files: Files)
      ensures this.files == files
    {
      this.files := files;
    }

    /** `concatenate_dfs_on_disk(paths, output_file)`. */
    method ConcatenateDfsOnDisk(paths: seq<string>, outputFile: string) returns (r: Result<(), Error>)
      modifies this
      ensures r.Failure? ==> files == old(files)
      ensures Concatenate(old(files), paths, outputFile) == if r.Success? then Success(files) else Failure(r.error)
    {
      if !AllExist(files, paths) {
        return Failure(AssertionError(MissingFileMessage));
      }
      if !AllInputFormats(paths) {
        return Failure(AssertionError(InputFormatMessage));
      }
      var storageFormat := Lower(Extension(outputFile));
      if storageFormat !in ["csv", "parquet"] {
        return Failure(AssertionError(OutputFormatMessage));
      }
      ghost var before := files;
      files := files[outputFile := None];
      var written: Option<Table>;
      if storageFormat == "csv" {
        written := WriteCsv(paths);
      } else {
        written := WriteParquet(paths);
      }
      if written.Some? {
        files := files[outputFile := written];
      } else {
        files := files - {outputFile};
      }
      ConcatenateChecked(before, paths, outputFile, written);
      r := Success(());
    }

    /** The CSV loop with its `first_file` flag. */
    method WriteCsv(paths: seq<string>) returns (out: Option<Table>)
      requires AllExist(files, paths)
      ensures out == CsvWrite(files, paths)
    {
      var firstFile := true;
      var columns: seq<string> := [];
      var rows: seq<Row> := [];
      var i := 0;
      while i < |paths|
        invariant 0 <= i <= |paths|
        invariant firstFile <==> i == 0
        invariant CsvWrite(files, paths[..i]) == Some(Table(columns, rows))
      {
        assert paths[..i + 1][..i] == paths[..i];
        var df := files[paths[i]];
        if df.None? {
          CsvWriteFailureSticks(files, paths, i + 1);
          return None;
        }
        if firstFile {
          columns := df.value.columns;
        }
        rows := rows + df.value.rows;
        firstFile := false;
        i := i + 1;
      }
      assert paths[..i] == paths;
      out := Some(Table(columns, rows));
    }

    /** The parquet branch: a writer on the schema of the first table, then one
        `write_table` per further path. */
    method WriteParquet(paths: seq<string>) returns (out: Option<Table>)
      requires AllExist(files, paths)
      ensures out == ParquetWrite(files, paths)
    {
      if |paths| == 0 {
        return None;
      }
      var first := files[paths[0]];
      assert paths[..1] == [paths[0]];
      if first.None? {
        ParquetWriteFailureSticks(files, paths, 1);
        return None;
      }
      var schema := first.value.columns;
      var rows := first.value.rows;
      var i := 1;
      while i < |paths|
        invariant 1 <= i <= |paths|
        invariant ParquetWrite(files, paths[..i]) == Some(Table(schema, rows))
      {
        assert paths[..i + 1][..i] == paths[..i];
        var t := files[paths[i]];
        if t.None? || t.value.columns != schema {
          ParquetWriteFailureSticks(files, paths, i + 1);
          return None;
        }
        rows := rows + t.value.rows;
        i := i + 1;
      }
      assert paths[..i] == paths;
      out := Some(Table(schema, rows));
    }
  }

  // ---------------------------------------------------------------------------
  // Properties

  /** Once the assertions pass, the disk is the truncated one with the write's outcome. */
  lemma ConcatenateChecked(files: Files, paths: seq<string>, outputFile: string, written: Option<Table>)
    requires AllExist(files, paths) && AllInputFormats(paths)
    requires Lower(Extension(outputFile)) in ["csv", "parquet"]
    requires written == if Lower(Extension(outputFile)) == "csv" then CsvWrite(files[outputFile := None], paths)
                        else ParquetWrite(files[outputFile := None], paths)
    ensures Concatenate(files, paths, outputFile)
            == Success(if written.Some? then files[outputFile := None][outputFile := written]
                       else files[outputFile := None] - {outputFile})
  {
    var truncated := files[outputFile := None];
    assert truncated[outputFile := written] == files[outputFile := written];
    assert truncated - {outputFile} == files - {outputFile};
  }


  /** Once a file fails to load, the CSV output fails whatever follows. */
  lemma {:induction false} CsvWriteFailureSticks(files: Files, paths: seq<string>, k: nat)
    requires AllExist(files, paths) && 0 < k <= |paths|
    requires CsvWrite(files, paths[..k]).None?
    ensures CsvWrite(files, paths).None?
    decreases |paths| - k
  {
    if k < |paths| {
      assert paths[..k + 1][..k] == paths[..k];
      CsvWriteFailureSticks(files, paths, k + 1);
    } else {
      assert paths[..k] == paths;
    }
  }

  lemma {:induction false} ParquetWriteFailureSticks(files: Files, paths: seq<string>, k: nat)
    requires AllExist(files, paths) && 0 < k <= |paths|
    requires ParquetWrite(files, paths[..k]).None?
    ensures ParquetWrite(files, paths).None?
    decreases |paths| - k
  {
    if k < |paths| {
      assert paths[..k + 1][..k] == paths[..k];
      ParquetWriteFailureSticks(files, paths, k + 1);
    } else {
      assert paths[..k] == paths;
    }
  }

  /** A CSV output exists iff every file loads; it carries the first file's header once and
      then the rows of every path in order. */
  lemma {:induction false} CsvWriteShape(files: Files, paths: seq<string>)
    requires AllExist(files, paths)
    ensures CsvWrite(files, paths).Some? <==> AllReadable(files, paths)
    ensures CsvWrite(files, paths).Some? ==>
              CsvWrite(files, paths).value
              == Table(if paths == [] then [] else files[paths[0]].value.columns, AllRows(files, paths))
    decreases |paths|
  {
    if paths != [] {
      var init := paths[..|paths| - 1];
      assert AllExist(files, init);
      CsvWriteShape(files, init);
      assert forall i :: 0 <= i < |init| ==> init[i] == paths[i];
      if |paths| > 1 {
        assert init[0] == paths[0];
      }
    }
  }

  /** A parquet output exists iff there is a first path, every file loads and every table has
      the first table's columns; it has those columns and the rows of every path in order. */
  lemma {:induction false} ParquetWriteShape(files: Files, paths: seq<string>)
    requires AllExist(files, paths)
    ensures ParquetWrite(files, paths).Some? <==>
              |paths| > 0 && AllReadable(files, paths)
              && forall i :: 0 <= i < |paths| ==> files[paths[i]].value.columns == files[paths[0]].value.columns
    ensures ParquetWrite(files, paths).Some? ==>
              ParquetWrite(files, paths).value == Table(files[paths[0]].value.columns, AllRows(files, paths))
    decreases |paths|
  {
    if |paths| == 1 {
      assert paths[..0] == [];
    } else if |paths| > 1 {
      var init := paths[..|paths| - 1];
      assert AllExist(files, init);
      ParquetWriteShape(files, init);
      assert forall i :: 0 <= i < |init| ==> init[i] == paths[i];
    }
  }

  /** The assertions: the call fails, leaving the disk alone, iff a path is missing, an input
      is not zip, csv or parquet, or the output is not csv or parquet (in any case). */
  lemma ConcatenateAsserts(files: Files, paths: seq<string>, outputFile: string)
    ensures Concatenate(files, paths, outputFile).Failure?
            <==> !AllExist(files, paths) || !AllInputFormats(paths)
                 || Lower(Extension(outputFile)) !in ["csv", "parquet"]
    ensures Concatenate(files, paths, outputFile).Failure? ==> Concatenate(files, paths, outputFile).error.AssertionError?
  {
  }

  /** A call that passed its assertions leaves every other path as it was. */
  lemma ConcatenateKeepsOthers(files: Files, paths: seq<string>, outputFile: string, p: string)
    requires Concatenate(files, paths, outputFile).Success?
    requires p != outputFile
    ensures var after := Concatenate(files, paths, outputFile).value;
      (p in after <==> p in files) && (p in after ==> after[p] == files[p])
  {
    var truncated := files[outputFile := None];
    var written := if Lower(Extension(outputFile)) == "csv" then CsvWrite(truncated, paths) else ParquetWrite(truncated, paths);
    ConcatenateChecked(files, paths, outputFile, written);
  }

  /** After a call that passed its assertions, the output holds the concatenation or, when
      the write block raised, no longer exists. */
  lemma ConcatenateOutcome(files: Files, paths: seq<string>, outputFile: string)
    requires Concatenate(files, paths, outputFile).Success?
    ensures var after := Concatenate(files, paths, outputFile).value;
      var truncated := files[outputFile := None];
      var csv := Lower(Extension(outputFile)) == "csv";
      && (csv ==> (outputFile in after <==> AllReadable(truncated, paths)))
      && (csv && outputFile in after ==>
            after[outputFile] == Some(Table(if paths == [] then [] else truncated[paths[0]].value.columns, AllRows(truncated, paths))))
      && (!csv && outputFile in after ==>
            |paths| > 0 && AllReadable(truncated, paths)
            && after[outputFile] == Some(Table(truncated[paths[0]].value.columns, AllRows(truncated, paths))))
  {
    var truncated := files[outputFile := None];
    var csv := Lower(Extension(outputFile)) == "csv";
    var written := if csv then CsvWrite(truncated, paths) else ParquetWrite(truncated, paths);
    ConcatenateChecked(files, paths, outputFile, written);
    if csv {
      CsvWriteShape(truncated, paths);
    } else {
      ParquetWriteShape(truncated, paths);
    }
  }

  /** A job whose output is also one of its inputs cannot succeed: opening the output truncates it. */
  lemma OutputAmongInputs(files: Files, paths: seq<string>, outputFile: string)
    requires Concatenate(files, paths, outputFile).Success?
    requires outputFile in paths
    ensures outputFile !in Concatenate(files, paths, outputFile).value
  {
    var truncated := files[outputFile := None];
    var i :| 0 <= i < |paths| && paths[i] == outputFile;
    CsvWriteShape(truncated, paths);
    ParquetWriteShape(truncated, paths);
  }
}
