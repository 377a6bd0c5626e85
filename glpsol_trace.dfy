/**
 * The `glpsol_trace` driver: validates its command line, then either prints
 * the problem's counts or starts the traced exact simplex. Reading the
 * problem is the parameter `load`, the problem a GLPK reader builds from a
 * file. MPS files are read in the free MPS dialect.
 */
module GlpsolTrace {

  import opened Base
  import opened TraceOptions

  /** `read_problem`: the LP reader for LP, and the free-format MPS reader for MPS. */
  function ReadProblem(format: ModelFormat): Reader
  {
    match format
    case Lp => LpReader
    case Mps => FreeMpsReader
  }

  /**
   * `main`. Help comes first; a model file is required; the pivoting rule is
   * required and must be known before `--info` is looked at; every failure
   * also prints the help text.
   */
  method Run(opts: Options, load: (string, Reader) -> LpProblem) returns (o: Outcome)
    ensures opts.help ==> o == Usage && ExitCode(o) == ExitSuccess
    ensures !opts.help && opts.modelFile.None? ==> o == Fail(MissingModelFile, true)
    ensures !opts.help && opts.modelFile.Some? && opts.pivot.None? ==> o == Fail(MissingPivot, true)
    ensures !opts.help && opts.modelFile.Some? && opts.pivot.Some? && ParsePivot(opts.pivot.value).None? ==>
      o == Fail(UnknownPivot(opts.pivot.value), true)
    ensures !opts.help && opts.modelFile.Some? && opts.pivot.Some? && ParsePivot(opts.pivot.value).Some? ==>
      && (opts.info ==> o == Info(InfoLines(load(opts.modelFile.value, ReadProblem(FormatOf(opts))))))
      && (!opts.info ==> o == Solve(ConfigOf(opts, opts.modelFile.value, ReadProblem(FormatOf(opts)), ParsePivot(opts.pivot.value).value)))
    ensures o.Fail? ==> o.usageShown && ExitCode(o) == ExitFailure
    ensures o.Solve? ==> PivotName(o.config.pivot) == opts.pivot.value
    ensures o.Solve? ==> (o.config.reader == FreeMpsReader <==> opts.mps) && o.config.reader != FixedMpsReader
  {
    if opts.help {
      return Usage;
    }

    var problemFile := "";
    var format := Lp;
    var infoFile, objFile, statusFile, varFile := "", "", "", "";
    if opts.modelFile.Some? {
      problemFile := opts.modelFile.value;
    } else {
      return Fail(MissingModelFile, true);
    }

    if opts.lp {
      format := Lp;
    }
    if opts.mps {
      format := Mps;
    }

    if opts.infoFile.Some? {
      infoFile := opts.infoFile.value;
    }
    if opts.objFile.Some? {
      objFile := opts.objFile.value;
    }
    if opts.statusFile.Some? {
      statusFile := opts.statusFile.value;
    }
    if opts.varFile.Some? {
      varFile := opts.varFile.value;
    }

    if opts.pivot.None? {
      return Fail(MissingPivot, true);
    }
    var rule := ParsePivot(opts.pivot.value);
    if rule.None? {
      return Fail(UnknownPivot(opts.pivot.value), true);
    }

    var bitsOnly := false;
    if opts.bitsOnly {
      bitsOnly := true;
    }
    var scale := false;
    if opts.scale {
      scale := true;
    }

    if opts.info {
      return Info(InfoLines(load(problemFile, ReadProblem(format))));
    }
    return Solve(TraceConfig(problemFile, ReadProblem(format), infoFile, objFile, statusFile, varFile, rule.value, bitsOnly, scale));
  }
}
