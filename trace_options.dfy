/**
 * What the two tracing drivers, `glpsol_trace` and `mcfglpk`, share: the
 * command line as the option parser hands it over, the pivoting rules and
 * their names, the configuration handed to the traced exact simplex, and
 * the three lines of problem information printed by `--info`.
 */
module TraceOptions {

  import opened Base
  import opened Digits

  // ---------------------------------------------------------------------------
  // Pivoting rules
  // ---------------------------------------------------------------------------

  /** The four pivoting rules of the traced simplex. */
  datatype PivotRule = Dantzig | Bland | Best | Random

  /** The name of each rule on the command line. */
  function PivotName(r: PivotRule): string
  {
    match r
    case Dantzig => "dantzig"
    case Bland => "bland"
    case Best => "best"
    case Random => "random"
  }

  const PivotNames: set<string> := {"dantzig", "bland", "best", "random"}

  /** The chain of name comparisons in `main`: a known name gives its rule, anything else nothing. */
  function ParsePivot(name: string): (r: Option<PivotRule>)
    ensures r.Some? <==> name in PivotNames
    ensures r.Some? ==> PivotName(r.value) == name
  {
    if name == "dantzig" then Some(Dantzig)
    else if name == "bland" then Some(Bland)
    else if name == "best" then Some(Best)
    else if name == "random" then Some(Random)
    else None
  }

  /** Every rule is selected by its own name, and by no other: the names are distinct. */
  lemma PivotNameRoundTrip(r: PivotRule, s: PivotRule)
    ensures ParsePivot(PivotName(r)) == Some(r)
    ensures PivotName(r) == PivotName(s) ==> r == s
  {
  }

  // ---------------------------------------------------------------------------
  // The command line and the solver configuration
  // ---------------------------------------------------------------------------

  /**
   * The parsed command line: a flag is whether the option was given, a
   * value option holds its value when it was given (the model file may also
   * be given as the positional argument).
   */
  datatype Options = Options(
    help: bool,
    modelFile: Option<string>,
    lp: bool,
    mps: bool,
    pivot: Option<string>,
    infoFile: Option<string>,
    objFile: Option<string>,
    statusFile: Option<string>,
    varFile: Option<string>,
    info: bool,
    bitsOnly: bool,
    scale: bool)

  /** The format `main` settles on for the model file. */
  datatype ModelFormat = Lp | Mps

  /**
   * The GLPK reader a driver calls for a format: the LP reader, or the MPS
   * reader in its free or its fixed dialect. Which MPS dialect is used is
   * the driver's choice.
   */
  datatype Reader = LpReader | FreeMpsReader | FixedMpsReader

  /** The format starts as LP; `--lp` sets LP and then `--mps` sets MPS, so MPS wins when both are given. */
  function FormatOf(opts: Options): (f: ModelFormat)
    ensures f == Mps <==> opts.mps
  {
    if opts.mps then Mps else Lp
  }

  /** A file name option's value, or the empty name a string starts out with. */
  function NameOrEmpty(o: Option<string>): (name: string)
    ensures o.None? ==> name == ""
    ensures o.Some? ==> name == o.value
  {
    match o
    case None => ""
    case Some(v) => v
  }

  /** Everything the traced solve is started with. */
  datatype TraceConfig = TraceConfig(
    modelFile: string,
    reader: Reader,
    infoFile: string,
    objFile: string,
    statusFile: string,
    varFile: string,
    pivot: PivotRule,
    bitsOnly: bool,
    scale: bool)

  /** The configuration a valid command line gives, with the driver's model file, reader and pivoting rule. */
  function ConfigOf(opts: Options, modelFile: string, reader: Reader, rule: PivotRule): (c: TraceConfig)
    ensures c.modelFile == modelFile && c.reader == reader && c.pivot == rule
    ensures c.bitsOnly <==> opts.bitsOnly
    ensures c.scale <==> opts.scale
    ensures opts.infoFile.None? ==> c.infoFile == ""
    ensures opts.objFile.None? ==> c.objFile == ""
    ensures opts.statusFile.None? ==> c.statusFile == ""
    ensures opts.varFile.None? ==> c.varFile == ""
    ensures opts.infoFile.Some? ==> c.infoFile == opts.infoFile.value
    ensures opts.objFile.Some? ==> c.objFile == opts.objFile.value
    ensures opts.statusFile.Some? ==> c.statusFile == opts.statusFile.value
    ensures opts.varFile.Some? ==> c.varFile == opts.varFile.value
  {
    TraceConfig(modelFile, reader,
      NameOrEmpty(opts.infoFile), NameOrEmpty(opts.objFile),
      NameOrEmpty(opts.statusFile), NameOrEmpty(opts.varFile),
      rule, opts.bitsOnly, opts.scale)
  }

  // ---------------------------------------------------------------------------
  // What a run of a driver does
  // ---------------------------------------------------------------------------

  datatype Error = MissingModelFile | MissingPivot | UnknownPivot(name: string)

  datatype Outcome =
    | Usage                                  // help on standard output
    | Fail(error: Error, usageShown: bool)   // an error message, and help when `usageShown`
    | Info(lines: seq<string>)               // lines on standard output, no solve
    | Solve(config: TraceConfig)             // the traced exact simplex is run

  function ExitCode(o: Outcome): (code: int)
    ensures code == ExitFailure <==> o.Fail?
    ensures code == ExitSuccess <==> !o.Fail?
  {
    if o.Fail? then ExitFailure else ExitSuccess
  }

  // ---------------------------------------------------------------------------
  // Problem information
  // ---------------------------------------------------------------------------

  /** A linear program as far as the drivers look at it: its row and column names and its nonzero count. */
  datatype LpProblem = LpProblem(rows: seq<string>, cols: seq<string>, nonzeros: nat)

  const RowsLabel: string := "rows: "
  const ColsLabel: string := "cols: "
  const NonzerosLabel: string := "nonzeros: "

  /** `print_info_and_exit`: the number of rows, of columns and of nonzeros, one line each. */
  function InfoLines(p: LpProblem): (lines: seq<string>)
    ensures |lines| == 3
  {
    [RowsLabel + Decimal(|p.rows|), ColsLabel + Decimal(|p.cols|), NonzerosLabel + Decimal(p.nonzeros)]
  }

  /** Reads a count written after `prefix`. */
  function ParseCount(prefix: string, line: string): Option<nat>
  {
    if |prefix| <= |line| && line[..|prefix|] == prefix then ParseNat(line[|prefix|..]) else None
  }

  /** Reads the three information lines back into the three counts. */
  function ParseInfoLines(lines: seq<string>): Option<(nat, nat, nat)>
  {
    if |lines| != 3 then None
    else match (ParseCount(RowsLabel, lines[0]), ParseCount(ColsLabel, lines[1]), ParseCount(NonzerosLabel, lines[2]))
      case (Some(r), Some(c), Some(n)) => Some((r, c, n))
      case _ => None
  }

  lemma ParseCountRoundTrip(prefix: string, n: nat)
    ensures ParseCount(prefix, prefix + Decimal(n)) == Some(n)
  {
    var line := prefix + Decimal(n);
    assert line[..|prefix|] == prefix;
    assert line[|prefix|..] == Decimal(n);
    DecimalRoundTrip(n);
  }

  /** The information lines give back exactly the three counts of the problem. */
  lemma InfoLinesRoundTrip(p: LpProblem)
    ensures ParseInfoLines(InfoLines(p)) == Some((|p.rows|, |p.cols|, p.nonzeros))
  {
    ParseCountRoundTrip(RowsLabel, |p.rows|);
    ParseCountRoundTrip(ColsLabel, |p.cols|);
    ParseCountRoundTrip(NonzerosLabel, p.nonzeros);
  }
}
