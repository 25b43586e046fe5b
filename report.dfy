/** The `report` file the build leaves in the call-graph directory, as both
    consumers read it: one `key: value[: value ...]` record per line, lines
    starting with `#` skipped, each line stripped and split on ": ". */
module Report {
  import opened Text

  /** The fields of a report line; `split` never returns an empty list. */
  type Fields = f: seq<string> | |f| >= 1 witness [""]

  const FieldSep: string := ": "

  predicate Comment(line: string) {
    StartsWith(line, "#")
  }

  /** `line.strip().split(': ')` */
  function ParseLine(line: string): Fields {
    Split(Strip(line), FieldSep)
  }

  /** The fields of a line are the pieces between its separators: joined
      back with ": " they give the stripped line, and none holds a ": ". */
  lemma ParseLineFields(line: string)
    ensures var r := ParseLine(line);
            Join(r, FieldSep) == Strip(line) && forall i :: 0 <= i < |r| ==> !Contains(r[i], FieldSep)
  {
    JoinSplit(Strip(line), FieldSep);
    SplitPiecesFree(Strip(line), FieldSep);
  }

  /** What one line contributes: nothing for a comment, else its fields. */
  function Record(line: string): (r: seq<Fields>)
    ensures Comment(line) <==> r == []
  {
    if Comment(line) then [] else [ParseLine(line)]
  }

  /** `[l.strip().split(': ') for l in fd if not l.startswith('#')]` */
  function ReportLines(raw: seq<string>): (r: seq<Fields>)
    ensures |r| <= |raw|
  {
    if raw == [] then [] else Record(raw[0]) + ReportLines(raw[1..])
  }

  /** Every line that is not a comment gives exactly one record, in file
      order: the records of a file are those of its parts, concatenated. */
  lemma {:induction false} ReportLinesAppend(a: seq<string>, b: seq<string>)
    ensures ReportLines(a + b) == ReportLines(a) + ReportLines(b)
    decreases |a|
  {
    if a == [] {
      assert a + b == b;
    } else {
      assert (a + b)[0] == a[0];
      assert (a + b)[1..] == a[1..] + b;
      ReportLinesAppend(a[1..], b);
      var h, x, y := Record(a[0]), ReportLines(a[1..]), ReportLines(b);
      assert h + (x + y) == (h + x) + y;
    }
  }

  /** A single line gives its own record, or none when it is a comment. */
  lemma ReportLineSingle(line: string)
    ensures ReportLines([line]) == (if Comment(line) then [] else [ParseLine(line)])
  {
    assert [line][1..] == [];
  }

  /** How a step of a consumer ends: normally, with the consumer's own error
      (`PluginError`, `AnalyserError`), which its caller catches, or with any
      other exception (`IndexError` on a short line, `KeyError`, ...), which
      nothing in the consumer catches. */
  datatype Outcome = Ok | Raised | Uncaught

  /** An `fcg.json` file: its top-level fields, or text `json.load` rejects. */
  datatype GraphFile = Parsed(fields: map<string, string>) | Unparsable
}
