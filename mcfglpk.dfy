/**
 * The `mcfglpk` driver: the same command line as `glpsol_trace` with two
 * differences in `main` (no model file is required, and failures do not
 * print the help text) and one in reading (MPS files are read in the
 * fixed MPS dialect), plus the table of row and column names and the
 * information block built from it. Nothing in the program writes that
 * block: the only call of `print_info` is commented out.
 */
module Mcfglpk {

  import opened Base
  import opened TraceOptions

  // ---------------------------------------------------------------------------
  // Names
  // ---------------------------------------------------------------------------

  /**
   * `get_names`: slot 0 is an unused empty name, slots 1 to nrows hold the
   * row names and slots nrows + 1 to nrows + ncols the column names, in GLPK's 1-based
   * numbering.
   */
  method GetNames(p: LpProblem) returns (names: seq<string>)
    ensures |names| == |p.rows| + |p.cols| + 1
    ensures names[0] == ""
    ensures forall i :: 1 <= i <= |p.rows| ==> names[i] == p.rows[i - 1]
    ensures forall j :: 0 <= j < |p.cols| ==> names[|p.rows| + 1 + j] == p.cols[j]
  {
    names := [""];
    var i := 1;
    while i <= |p.rows|
      invariant 1 <= i <= |p.rows| + 1
      invariant names == [""] + p.rows[..i - 1]
    {
      names := names + [p.rows[i - 1]];
      assert p.rows[..i] == p.rows[..i - 1] + [p.rows[i - 1]];
      i := i + 1;
    }
    assert p.rows[..i - 1] == p.rows;
    var j := 1;
    while j <= |p.cols|
      invariant 1 <= j <= |p.cols| + 1
      invariant names == [""] + p.rows + p.cols[..j - 1]
    {
      names := names + [p.cols[j - 1]];
      assert p.cols[..j] == p.cols[..j - 1] + [p.cols[j - 1]];
      j := j + 1;
    }
    assert p.cols[..j - 1] == p.cols;
  }

  const StartNames: string := "--- START NAMES ---"
  const EndNames: string := "--- END NAMES ---"

  /** The information block: the three counts, then every row and column name between the two markers. */
  function InfoBlock(p: LpProblem): seq<string>
  {
    InfoLines(p) + [StartNames] + p.rows + p.cols + [EndNames]
  }

  /**
   * `print_info`: the counts, the start marker, the names from slot 1 on
   * (so never the empty slot 0), and the end marker.
   */
  method PrintInfo(p: LpProblem) returns (lines: seq<string>)
    ensures lines == InfoBlock(p)
    ensures |lines| == |p.rows| + |p.cols| + 5
  {
    lines := InfoLines(p);
    lines := lines + [StartNames];
    var names := GetNames(p);
    var i := 1;
    while i < |names|
      invariant 1 <= i <= |names|
      invariant lines == InfoLines(p) + [StartNames] + names[1..i]
    {
      lines := lines + [names[i]];
      assert names[1..i + 1] == names[1..i] + [names[i]];
      i := i + 1;
    }
    assert names[1..] == p.rows + p.cols by {
      forall t | 0 <= t < |p.rows| + |p.cols|
        ensures names[1..][t] == (p.rows + p.cols)[t]
      {
        if t >= |p.rows| {
          assert names[|p.rows| + 1 + (t - |p.rows|)] == p.cols[t - |p.rows|];
        }
      }
    }
    lines := lines + [EndNames];
  }

  /**
   * Reads an information block back: the counts say how many names follow
   * the start marker, so names that look like a marker are still read right.
   */
  function ReadInfoBlock(lines: seq<string>): Option<LpProblem>
  {
    if |lines| < 5 then None
    else match ParseInfoLines(lines[..3])
      case None => None
      case Some((r, c, n)) =>
        if |lines| == r + c + 5 && lines[3] == StartNames && lines[|lines| - 1] == EndNames
        then Some(LpProblem(lines[4..4 + r], lines[4 + r..4 + r + c], n))
        else None
  }

  /** The information block determines the problem's names and counts. */
  lemma InfoBlockRoundTrip(p: LpProblem)
    ensures ReadInfoBlock(InfoBlock(p)) == Some(p)
  {
    var lines := InfoBlock(p);
    var r, c := |p.rows|, |p.cols|;
    assert lines[..3] == InfoLines(p);
    InfoLinesRoundTrip(p);
    assert lines[4..4 + r] == p.rows;
    assert lines[4 + r..4 + r + c] == p.cols;
  }

  // ---------------------------------------------------------------------------
  // Reading and the command line
  // ---------------------------------------------------------------------------

  /** The readers of `print_info_and_exit` and `get_trace`: LP, or the fixed-format MPS reader. */
  function ReadProblem(format: ModelFormat): Reader
  {
    match format
    case Lp => LpReader
    case Mps => FixedMpsReader
  }

  /**
   * `main`. Help comes first; the model file may be absent and is then the
   * empty name; the pivoting rule is required and must be known before
   * `--info` is looked at; failures print only their message.
   */
  method Run(opts: Options, load: (string, Reader) -> LpProblem) returns (o: Outcome)
    ensures opts.help ==> o == Usage && ExitCode(o) == ExitSuccess
    ensures !opts.help && opts.pivot.None? ==> o == Fail(MissingPivot, false)
    ensures !opts.help && opts.pivot.Some? && ParsePivot(opts.pivot.value).None? ==>
      o == Fail(UnknownPivot(opts.pivot.value), false)
    ensures !opts.help && opts.pivot.Some? && ParsePivot(opts.pivot.value).Some? ==>
      && (opts.info ==> o == Info(InfoLines(load(NameOrEmpty(opts.modelFile), ReadProblem(FormatOf(opts))))))
      && (!opts.info ==> o == Solve(ConfigOf(opts, NameOrEmpty(opts.modelFile), ReadProblem(FormatOf(opts)), ParsePivot(opts.pivot.value).value)))
    ensures o.Fail? ==> !o.usageShown && o.error != MissingModelFile && ExitCode(o) == ExitFailure
    ensures o.Solve? && opts.modelFile.None? ==> o.config.modelFile == ""
    ensures o.Solve? ==> (o.config.reader == FixedMpsReader <==> opts.mps) && o.config.reader != FreeMpsReader
  {
    if opts.help {
      return Usage;
    }

    var fileName := "";
    var format := Lp;
    var infoFile, objFile, statusFile, varFile := "", "", "", "";
    if opts.modelFile.Some? {
      fileName := opts.modelFile.value;
    }

    if opts.lp {
      format := Lp;
    }
    if opts.mps {
      format := Mps;
    }

    if opts.infoFile.Some? {
      infoFile := opts.infoFile.value;
    }
    if opts.objFile.Some? {
      objFile := opts.objFile.value;
    }
    if opts.statusFile.Some? {
      statusFile := opts.statusFile.value;
    }
    if opts.varFile.Some? {
      varFile := opts.varFile.value;
    }

    if opts.pivot.None? {
      return Fail(MissingPivot, false);
    }
    var rule := ParsePivot(opts.pivot.value);
    if rule.None? {
      return Fail(UnknownPivot(opts.pivot.value), false);
    }

    var bitsOnly := false;
    if opts.bitsOnly {
      bitsOnly := true;
    }
    var scale := false;
    if opts.scale {
      scale := true;
    }

    if opts.info {
      return Info(InfoLines(load(fileName, ReadProblem(format))));
    }
    return Solve(TraceConfig(fileName, ReadProblem(format), infoFile, objFile, statusFile, varFile, rule.value, bitsOnly, scale));
  }
}
