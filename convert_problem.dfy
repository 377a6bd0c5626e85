/**
 * The `convert_problem` tool: checks whether a multicommodity network has
 * unified costs, or writes it as a JSON document, as MPS, or as three counts.
 * The JSON document is built as a tree (the `nlohmann::json` value the tool
 * fills in); how that tree is serialised to text is not part of this model.
 */
module ConvertProblem {

  import opened Base
  import opened Numbers
  import opened Digits
  import opened Getopt
  import opened Network

  /** The JSON values the tool builds. Objects are keyed maps, as in `nlohmann::json`. */
  datatype Json =
    | JNum(v: Ext)
    | JStr(s: string)
    | JArr(items: seq<Json>)
    | JObj(fields: map<string, Json>)

  // ---------------------------------------------------------------------------
  // Unified costs
  // ---------------------------------------------------------------------------

  /** `is_unified_cost_arc`: every commodity's cost on arc `j` equals commodity 0's. */
  method IsUnifiedCostArc(g: Network, j: nat) returns (unified: bool)
    requires g.WellFormed() && j < g.nrArcs && g.nrComm >= 1
    ensures unified <==> ArcUnified(g, j)
  {
    var first := g.cost[0][j];
    var k := 1;
    while k < g.nrComm
      invariant 1 <= k <= g.nrComm
      invariant forall k' :: 0 <= k' < k ==> g.cost[k'][j] == first
    {
      if g.cost[k][j] != first {
        return false;
      }
      k := k + 1;
    }
    return true;
  }

  /** `is_unified_cost`: at most one commodity, or every arc has unified cost. */
  method IsUnifiedCost(g: Network) returns (unified: bool)
    requires g.WellFormed()
    ensures unified <==> UnifiedCosts(g)
    ensures g.nrComm <= 1 ==> unified
  {
    if g.nrComm <= 1 {
      return true;
    }
    var j := 0;
    while j < g.nrArcs
      invariant 0 <= j <= g.nrArcs
      invariant forall j', k :: 0 <= j' < j && 0 <= k < g.nrComm ==> g.cost[k][j'] == g.cost[0][j']
    {
      var arcUnified := IsUnifiedCostArc(g, j);
      if !arcUnified {
        return false;
      }
      j := j + 1;
    }
    return true;
  }

  // ---------------------------------------------------------------------------
  // The JSON document
  // ---------------------------------------------------------------------------

  /** What `collect_info` stores under "info". */
  function InfoObject(g: Network): Json
  {
    JObj(map[
      "no_nodes" := JNum(Fin(g.nrNodes)),
      "no_arcs" := JNum(Fin(g.nrArcs)),
      "no_commodities" := JNum(Fin(g.nrComm))])
  }

  /** The amount subtracted from node numbers: 1 when the input numbers nodes from 1. */
  function Fix(g: Network): int
  {
    if g.namesStartFrom1 then 1 else 0
  }

  /** An arc capacity in the document: the string "null" when infinite, the number otherwise. */
  function CapacityJson(c: Ext): Json
  {
    if c == Inf then JStr("null") else JNum(c)
  }

  /** Reads a capacity back from the document. */
  function CapacityFromJson(v: Json): Option<Ext>
  {
    match v
    case JStr(s) => if s == "null" then Some(Inf) else None
    case JNum(Fin(n)) => Some(Fin(n))
    case _ => None
  }

  /** Every capacity, finite or not, is read back as written. */
  lemma CapacityJsonRoundTrip(c: Ext)
    ensures CapacityFromJson(CapacityJson(c)) == Some(c)
    ensures CapacityJson(c).JStr? <==> c == Inf
  {
  }

  /** A commodity's cost in the per-commodity cost object: the number when below infinity, "null" otherwise. */
  function CostJson(c: Ext): Json
  {
    if Less(c, Inf) then JNum(c) else JStr("null")
  }

  /** The object `collect_arcs` pushes for arc `i`. */
  function ArcObject(g: Network, i: nat): Json
    requires g.WellFormed() && i < g.nrArcs && g.nrComm >= 1
  {
    JObj(map[
      "from" := JNum(Fin(g.startN[i] - Fix(g))),
      "to" := JNum(Fin(g.endN[i] - Fix(g))),
      "capacity" := CapacityJson(ArcCapacity(g, i)),
      "cost" := JNum(g.cost[0][i])])
  }

  /**
   * The per-commodity cost object `collect_arcs` builds for an arc whose
   * costs differ: one entry per commodity, keyed by its number.
   */
  method PerCommodityCosts(g: Network, i: nat) returns (costs: map<string, Json>)
    requires g.WellFormed() && i < g.nrArcs
    ensures costs.Keys == DecimalsBelow(g.nrComm)
    ensures forall k :: 0 <= k < g.nrComm ==> costs[Decimal(k)] == CostJson(g.cost[k][i])
  {
    costs := map[];
    var k := 0;
    while k < g.nrComm
      invariant 0 <= k <= g.nrComm
      invariant costs.Keys == DecimalsBelow(k)
      invariant forall k' :: 0 <= k' < k ==> costs[Decimal(k')] == CostJson(g.cost[k'][i])
    {
      var cost := g.cost[k][i];
      var key := Decimal(k);
      DecimalsBelowStep(k);
      if Less(cost, Inf) {
        costs := costs[key := JNum(cost)];
      } else {
        costs := costs[key := JStr("null")];
      }
      k := k + 1;
    }
  }

  /**
   * `collect_arcs`: one object per arc, in arc order. The cost written is
   * always commodity 0's; for an arc whose costs differ the per-commodity
   * object is built and then left unused.
   */
  method CollectArcs(g: Network) returns (arcs: seq<Json>)
    requires g.WellFormed() && (g.nrArcs > 0 ==> g.nrComm >= 1)
    ensures |arcs| == g.nrArcs
    ensures forall i :: 0 <= i < g.nrArcs ==> arcs[i] == ArcObject(g, i)
  {
    var fix := if g.namesStartFrom1 then 1 else 0;
    arcs := [];
    var i := 0;
    while i < g.nrArcs
      invariant 0 <= i <= g.nrArcs
      invariant |arcs| == i
      invariant forall i' :: 0 <= i' < i ==> arcs[i'] == ArcObject(g, i')
    {
      var sumCapacity := SumCapacity(g, i);
      var arc: map<string, Json> := map[];
      arc := arc["from" := JNum(Fin(g.startN[i] - fix))];
      arc := arc["to" := JNum(Fin(g.endN[i] - fix))];
      var arcCapacity := Min(sumCapacity, g.totCap[i]);
      if arcCapacity == Inf {
        arc := arc["capacity" := JStr("null")];
      } else {
        arc := arc["capacity" := JNum(arcCapacity)];
      }
      var unified := IsUnifiedCostArc(g, i);
      if unified {
        arc := arc["cost" := JNum(g.cost[0][i])];
      } else {
        var costs := PerCommodityCosts(g, i);
        arc := arc["cost" := JNum(g.cost[0][i])];
      }
      arcs := arcs + [JObj(arc)];
      i := i + 1;
    }
  }

  /**
   * The demand object of node `i`: exactly the commodities with a nonzero
   * deficit at the node, keyed by commodity number, each with its deficit.
   */
  predicate NodeDemands(g: Network, i: nat, entries: map<string, Json>)
    requires g.WellFormed() && i < g.nrNodes
  {
    && (forall k :: 0 <= k < g.nrComm ==> (Decimal(k) in entries <==> g.deficit[k][i] != 0))
    && (forall k :: 0 <= k < g.nrComm && g.deficit[k][i] != 0 ==> entries[Decimal(k)] == JNum(Fin(g.deficit[k][i])))
    && (forall key :: key in entries ==> exists k :: 0 <= k < g.nrComm && key == Decimal(k))
  }

  /** The inner loop of `collect_demands`: the demand object of node `i`. */
  method CollectNodeDemands(g: Network, i: nat) returns (entries: map<string, Json>)
    requires g.WellFormed() && i < g.nrNodes
    ensures NodeDemands(g, i, entries)
  {
    entries := map[];
    var k := 0;
    while k < g.nrComm
      invariant 0 <= k <= g.nrComm
      invariant forall k' :: 0 <= k' < k ==> (Decimal(k') in entries <==> g.deficit[k'][i] != 0)
      invariant forall k' :: 0 <= k' < k && g.deficit[k'][i] != 0 ==> entries[Decimal(k')] == JNum(Fin(g.deficit[k'][i]))
      invariant forall key :: key in entries ==> exists k' :: 0 <= k' < k && key == Decimal(k')
    {
      var deficit := g.deficit[k][i];
      forall k' | 0 <= k' < g.nrComm && k' != k
        ensures Decimal(k') != Decimal(k)
      {
        DecimalInjective(k', k);
      }
      if deficit != 0 {
        entries := entries[Decimal(k) := JNum(Fin(deficit))];
      }
      k := k + 1;
    }
  }

  /** `collect_demands`: one demand object per node, keyed by the node's 0-based number. */
  method CollectDemands(g: Network) returns (demands: map<string, Json>)
    requires g.WellFormed()
    ensures demands.Keys == DecimalsBelow(g.nrNodes)
    ensures forall i :: 0 <= i < g.nrNodes ==>
      demands[Decimal(i)].JObj? && NodeDemands(g, i, demands[Decimal(i)].fields)
  {
    demands := map[];
    var i := 0;
    while i < g.nrNodes
      invariant 0 <= i <= g.nrNodes
      invariant demands.Keys == DecimalsBelow(i)
      invariant forall i' :: 0 <= i' < i ==>
        demands[Decimal(i')].JObj? && NodeDemands(g, i', demands[Decimal(i')].fields)
    {
      var entries := CollectNodeDemands(g, i);
      DecimalsBelowStep(i);
      demands := demands[Decimal(i) := JObj(entries)];
      i := i + 1;
    }
  }

  /** The document `print_network_json` writes: info, arcs in arc order, and per-node demands. */
  predicate NetworkDocument(g: Network, doc: Json)
    requires g.WellFormed() && (g.nrArcs > 0 ==> g.nrComm >= 1)
  {
    && doc.JObj?
    && doc.fields.Keys == {"info", "arcs", "demands"}
    && doc.fields["info"] == InfoObject(g)
    && doc.fields["arcs"].JArr?
    && |doc.fields["arcs"].items| == g.nrArcs
    && (forall i :: 0 <= i < g.nrArcs ==> doc.fields["arcs"].items[i] == ArcObject(g, i))
    && doc.fields["demands"].JObj?
    && doc.fields["demands"].fields.Keys == (DecimalsBelow(g.nrNodes))
    && (forall i :: 0 <= i < g.nrNodes ==>
          doc.fields["demands"].fields[Decimal(i)].JObj? &&
          NodeDemands(g, i, doc.fields["demands"].fields[Decimal(i)].fields))
  }

  /** `print_network_json`: the document built by `collect_info`, `collect_arcs` and `collect_demands`. */
  method PrintNetworkJson(g: Network) returns (doc: Json)
    requires g.WellFormed() && (g.nrArcs > 0 ==> g.nrComm >= 1)
    ensures NetworkDocument(g, doc)
  {
    var arcs := CollectArcs(g);
    var demands := CollectDemands(g);
    doc := JObj(map["info" := InfoObject(g), "arcs" := JArr(arcs), "demands" := JObj(demands)]);
  }

  // ---------------------------------------------------------------------------
  // The command line
  // ---------------------------------------------------------------------------

  /** One option as `getopt_long` returns it for "hi:f:co:t:"; anything else is `Unrecognized`. */
  datatype Opt =
    | Help
    | Input(file: string)
    | Format(arg: string)
    | CheckCost
    | Output(file: string)
    | OutFormat(name: string)
    | Unrecognized

  /** The options that end the loop, and why. */
  function StopOf(o: Opt): Option<Stop>
  {
    match o
    case Help => Some(HelpRequested)
    case Format(arg) => if FormatChar(arg) in FormatLetters then None else Some(InvalidFormat)
    case OutFormat(name) =>
      if name == "json" || name == "mps" || name == "info" then None else Some(InvalidOutputFormat)
    case Unrecognized => Some(UnknownOption)
    case _ => None
  }

  function PickInput(o: Opt): Option<string> { if o.Input? then Some(o.file) else None }
  function PickFormat(o: Opt): Option<char> { if o.Format? then Some(FormatChar(o.arg)) else None }
  function PickCheckCost(o: Opt): Option<bool> { if o.CheckCost? then Some(true) else None }
  function PickOutput(o: Opt): Option<string> { if o.Output? then Some(o.file) else None }
  function PickOutFormat(o: Opt): Option<string> { if o.OutFormat? then Some(o.name) else None }

  /** The settings the option loop leaves behind when it runs to the end. */
  datatype Settings = Settings(input: string, format: char, checkCost: bool, output: string, outFormat: string)

  /** Each setting is its option's last value, or the initial value when the option is absent. */
  function SettingsOf(args: seq<Opt>): Settings
  {
    Settings(
      Last(args, PickInput, ""),
      Last(args, PickFormat, '\0'),
      Last(args, PickCheckCost, false),
      Last(args, PickOutput, ""),
      Last(args, PickOutFormat, "mps"))
  }

  /** The `getopt_long` loop of `main`: stop at the first option that ends it, or collect the settings. */
  method ParseArgs(args: seq<Opt>) returns (r: Result<Settings, Stop>)
    ensures FirstStop(args, StopOf).Some? ==> r == Failure(FirstStop(args, StopOf).value)
    ensures FirstStop(args, StopOf).None? ==> r == Success(SettingsOf(args))
  {
    var input, format, checkCost, output, outFormat := "", '\0', false, "", "mps";
    var i := 0;
    while i < |args|
      invariant 0 <= i <= |args|
      invariant FirstStop(args[..i], StopOf).None?
      invariant Settings(input, format, checkCost, output, outFormat) == SettingsOf(args[..i])
    {
      assert args[..i + 1][..i] == args[..i];
      if StopOf(args[i]).Some? {
        FirstStopOfPrefix(args, StopOf, i + 1);
        return Failure(StopOf(args[i]).value);
      }
      match args[i] {
        case Input(file) => input := file;
        case Format(arg) => format := FormatChar(arg);
        case CheckCost => checkCost := true;
        case Output(file) => output := file;
        case OutFormat(name) => outFormat := name;
        case _ =>
      }
      i := i + 1;
    }
    assert args[..i] == args;
    return Success(Settings(input, format, checkCost, output, outFormat));
  }

  /** Where the JSON document goes: the output file when one is named, standard output otherwise. */
  datatype Destination = Stdout | File(name: string)

  /** What one run of the tool does. */
  datatype Outcome =
    | HelpShown                                   // usage printed
    | BadArguments(stop: Stop)                    // an option ended the loop: error and usage
    | MissingArguments                            // no input file or no format
    | CostReport(unified: bool)                   // the unified-cost check and its message
    | JsonWritten(dest: Destination, doc: Json)
    | MpsOutputMissing                            // MPS output without an output file
    | MpsWritten(file: string)
    | CountsPrinted(nodes: nat, arcs: nat, commodities: nat)
    | NoCommodityCost                             // JSON of arcs without commodities: commodity 0's cost does not exist

  /** The exit status, when the run has a defined one. */
  function ExitCode(o: Outcome): Option<int>
  {
    match o
    case HelpShown => Some(ExitSuccess)
    case BadArguments(_) => Some(ExitFailure)
    case MissingArguments => Some(ExitFailure)
    case CostReport(unified) => if unified then Some(ExitSuccess) else Some(ExitFailure)
    case JsonWritten(_, _) => Some(ExitSuccess)
    case MpsOutputMissing => Some(ExitFailure)
    case MpsWritten(_) => Some(ExitSuccess)
    case CountsPrinted(_, _, _) => Some(ExitSuccess)
    case NoCommodityCost => None
  }

  /**
   * `main`. `g` is the network the reader builds from the input file in the
   * chosen format, already made single-sourced and preprocessed.
   */
  method Run(args: seq<Opt>, g: Network) returns (o: Outcome)
    requires g.WellFormed()
    ensures FirstStop(args, StopOf) == Some(HelpRequested) ==> o == HelpShown
    ensures FirstStop(args, StopOf).Some? && FirstStop(args, StopOf) != Some(HelpRequested) ==>
      o == BadArguments(FirstStop(args, StopOf).value) && ExitCode(o) == Some(ExitFailure)
    ensures var s := SettingsOf(args);
      FirstStop(args, StopOf).None? && (s.input == "" || s.format == '\0') ==> o == MissingArguments
    ensures var s := SettingsOf(args);
      FirstStop(args, StopOf).None? && s.input != "" && s.format != '\0' ==>
        && (s.checkCost ==> o == CostReport(UnifiedCosts(g)))
        && (!s.checkCost && s.outFormat == "json" && (g.nrArcs > 0 ==> g.nrComm >= 1) ==>
              o.JsonWritten? && NetworkDocument(g, o.doc) &&
              o.dest == (if s.output == "" then Stdout else File(s.output)))
        && (!s.checkCost && s.outFormat == "json" && g.nrArcs > 0 && g.nrComm == 0 ==> o == NoCommodityCost)
        && (!s.checkCost && s.outFormat == "mps" ==>
              o == (if s.output == "" then MpsOutputMissing else MpsWritten(s.output)))
        && (!s.checkCost && s.outFormat == "info" ==> o == CountsPrinted(g.nrNodes, g.nrArcs, g.nrComm))
    ensures o.CostReport? ==> (ExitCode(o) == Some(ExitFailure) <==> !UnifiedCosts(g))
    ensures o == NoCommodityCost <==> ExitCode(o).None?
  {
    var parsed := ParseArgs(args);
    if parsed.Failure? {
      if parsed.error == HelpRequested {
        return HelpShown;
      }
      return BadArguments(parsed.error);
    }
    var s := parsed.value;
    if s.input == "" || s.format == '\0' {
      return MissingArguments;
    }
    if s.checkCost {
      var unified := IsUnifiedCost(g);
      return CostReport(unified);
    }
    if s.outFormat == "json" {
      if g.nrArcs > 0 && g.nrComm == 0 {
        return NoCommodityCost;
      }
      var doc := PrintNetworkJson(g);
      if s.output != "" {
        o := JsonWritten(File(s.output), doc);
      } else {
        o := JsonWritten(Stdout, doc);
      }
    } else if s.outFormat == "mps" {
      if s.output == "" {
        return MpsOutputMissing;
      }
      o := MpsWritten(s.output);
    } else {
      // the only value left after ParseArgs: "info"
      o := CountsPrinted(g.nrNodes, g.nrArcs, g.nrComm);
    }
  }
}
