/** The CSV log of accepted samples, seen as the rows it holds. Quoting,
    line terminators and the text form of numbers are not modelled: a
    numeric cell holds the exact number that is formatted into it. */
module CsvLog {

  datatype Cell = Text(s: string) | Num(x: real)

  type Row = seq<Cell>

  /** The header row, column by column. */
  const HEADER: Row := [Text("timestamp"), Text("eye"), Text("source_key"),
                        Text("x_norm"), Text("y_norm"), Text("x_px"), Text("y_px"),
                        Text("confidence"), Text("method")]

  /** The log file at the run's path: not there yet, or there with its rows
      (an empty file has none). */
  datatype CsvFile = Missing | Existing(rows: seq<Row>)

  function Rows(f: CsvFile): seq<Row> {
    if f.Existing? then f.rows else []
  }

  /** `os.path.exists(path) and os.path.getsize(path) > 0`. */
  predicate NonEmpty(f: CsvFile) {
    f.Existing? && f.rows != []
  }

  /** The file after `_ensure_csv_header`: a non-empty file is left alone;
      a missing or empty one is (re)written to hold the header alone. */
  function WithHeader(f: CsvFile): (r: CsvFile)
    ensures NonEmpty(r)
    ensures NonEmpty(f) ==> r == f
    ensures !NonEmpty(f) ==> r == Existing([HEADER])
  {
    if NonEmpty(f) then f else Existing([HEADER])
  }

  /** Ensuring the header twice is ensuring it once. */
  lemma WithHeaderIdempotent(f: CsvFile)
    ensures WithHeader(WithHeader(f)) == WithHeader(f)
  {
  }

  /** The file after appending one row (opening in append mode creates a
      missing file). */
  function Appended(f: CsvFile, row: Row): (r: CsvFile)
    ensures NonEmpty(r)
    ensures |Rows(r)| == |Rows(f)| + 1
    ensures Rows(r)[..|Rows(f)|] == Rows(f) && Rows(r)[|Rows(f)|] == row
  {
    Existing(Rows(f) + [row])
  }

  /** The row `_append_csv` writes for one accepted sample. */
  function SampleRow(ts: real, eyeLabel: string, sourceKey: string,
                     xNorm: real, yNorm: real, xPx: real, yPx: real,
                     conf: real, detector: string): (row: Row)
    ensures |row| == |HEADER|
  {
    [Num(ts), Text(eyeLabel), Text(sourceKey), Num(xNorm), Num(yNorm),
     Num(xPx), Num(yPx), Num(conf), Text(detector)]
  }

  /** `os.path.join(dir, name)`: no separator is added after a directory
      that is empty or already ends in one. */
  function JoinPath(dir: string, name: string): (path: string)
    ensures dir <= path && |dir| <= |path| - |name| <= |dir| + 1
    ensures path[|path| - |name|..] == name
    ensures dir != [] ==> path[|path| - |name| - 1] == '/'
  {
    if dir == [] || dir[|dir| - 1] == '/' then dir + name else dir + "/" + name
  }

  /** The run's log file name from the eye label and the start time,
      formatted `YYYY-MM-DD_HH-MM-SS`. */
  function CsvFileName(eyeLabel: string, startTime: string): (name: string)
    ensures |name| == |eyeLabel| + |startTime| + 18
    ensures name[..13] == "pupil_coords_" && name[|name| - 4..] == ".csv"
    ensures name[13..13 + |eyeLabel|] == eyeLabel && name[13 + |eyeLabel|] == '_'
    ensures name[14 + |eyeLabel|..|name| - 4] == startTime
  {
    "pupil_coords_" + eyeLabel + "_" + startTime + ".csv"
  }

  /** The log's path: the file name inside the settings directory. */
  function CsvPath(settingsDir: string, eyeLabel: string, startTime: string): (path: string)
    ensures settingsDir <= path
    ensures var name := CsvFileName(eyeLabel, startTime);
            |settingsDir| + |name| <= |path| && path[|path| - |name|..] == name
  {
    JoinPath(settingsDir, CsvFileName(eyeLabel, startTime))
  }

  /** Two concatenations with equally long right parts are equal part by part. */
  lemma ConcatCancel(x: string, y: string, x': string, y': string)
    requires x + y == x' + y' && |y| == |y'|
    ensures x == x' && y == y'
  {
    assert x == (x + y)[..|x|];
    assert x' == (x' + y')[..|x'|];
    assert y == (x + y)[|x|..];
    assert y' == (x' + y')[|x'|..];
  }

  /** One file per run: in the same directory, two runs whose start times
      have the same length (all of `YYYY-MM-DD_HH-MM-SS` do) share a log
      file only when they have the same eye label and start time. */
  lemma CsvPathDistinct(dir: string, e1: string, t1: string, e2: string, t2: string)
    requires |t1| == |t2|
    requires CsvPath(dir, e1, t1) == CsvPath(dir, e2, t2)
    ensures e1 == e2 && t1 == t2
  {
    var n1, n2 := CsvFileName(e1, t1), CsvFileName(e2, t2);
    if dir == [] || dir[|dir| - 1] == '/' {
      ConcatCancel(dir, n1, dir, n2);
    } else {
      ConcatCancel(dir + "/", n1, dir + "/", n2);
    }
    var p := "pupil_coords_";
    ConcatCancel(p + e1 + "_" + t1, ".csv", p + e2 + "_" + t2, ".csv");
    ConcatCancel(p + e1 + "_", t1, p + e2 + "_", t2);
    ConcatCancel(p + e1, "_", p + e2, "_");
    assert |e1| == |e2|;
    ConcatCancel(p, e1, p, e2);
  }
}
