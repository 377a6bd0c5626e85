/**
 * The `convert` tool: checks whether a multicommodity network has unified
 * costs, or prints it in one of two JSON-like text layouts. The printers
 * write to a stream piece by piece; the output is modelled as that sequence
 * of pieces, where a `Number` stands for a number written by `<<`.
 */
module Convert {

  import opened Base
  import opened Numbers
  import opened Getopt
  import opened Network

  /** A piece of printed text: literal characters, or a number in decimal. */
  datatype Piece = Text(s: string) | Number(v: int)

  /** The two printers share their structure and differ only in layout. */
  datatype Style = JsonStyle | NetworkStyle

  const Comma: seq<Piece> := [Text(",")]

  // ---------------------------------------------------------------------------
  // Separated lists
  // ---------------------------------------------------------------------------

  /** The items one after another, with `sep` written before every item but the first. */
  function Joined(items: seq<seq<Piece>>, sep: seq<Piece>): seq<Piece>
  {
    if items == [] then []
    else if |items| == 1 then items[0]
    else Joined(items[..|items| - 1], sep) + sep + items[|items| - 1]
  }

  lemma JoinedAppend(items: seq<seq<Piece>>, x: seq<Piece>, sep: seq<Piece>)
    ensures Joined(items + [x], sep) == Joined(items, sep) + (if items == [] then [] else sep) + x
  {
    assert (items + [x])[..|items|] == items;
  }

  /** How often `p` occurs in `ps`. */
  function Count(ps: seq<Piece>, p: Piece): nat
  {
    if ps == [] then 0 else Count(ps[..|ps| - 1], p) + (if ps[|ps| - 1] == p then 1 else 0)
  }

  /** How often `p` occurs in all the items together. */
  function CountAll(items: seq<seq<Piece>>, p: Piece): nat
  {
    if items == [] then 0 else CountAll(items[..|items| - 1], p) + Count(items[|items| - 1], p)
  }

  lemma {:induction false} CountAppend(a: seq<Piece>, b: seq<Piece>, p: Piece)
    ensures Count(a + b, p) == Count(a, p) + Count(b, p)
    decreases |b|
  {
    if b != [] {
      var b' := b[..|b| - 1];
      assert (a + b)[..|a + b| - 1] == a + b';
      CountAppend(a, b', p);
    } else {
      assert a + b == a;
    }
  }

  /**
   * A list of n >= 1 items holds the pieces of its items and n - 1 separators:
   * the separator is written before every item except the first.
   */
  lemma {:induction false} JoinedCount(items: seq<seq<Piece>>, sep: seq<Piece>, p: Piece)
    ensures Count(Joined(items, sep), p) ==
      CountAll(items, p) + (if items == [] then 0 else (|items| - 1) * Count(sep, p))
  {
    if |items| == 1 {
      assert items[..0] == [];
    } else if |items| > 1 {
      var n := |items|;
      var init := items[..n - 1];
      var c := Count(sep, p);
      var last := Count(items[n - 1], p);
      assert Count(Joined(items, sep), p) == Count(Joined(init, sep), p) + c + last by {
        CountAppend(Joined(init, sep), sep, p);
        CountAppend(Joined(init, sep) + sep, items[n - 1], p);
      }
      assert Count(Joined(init, sep), p) == CountAll(init, p) + (n - 2) * c by {
        JoinedCount(init, sep, p);
      }
      assert CountAll(items, p) == CountAll(init, p) + last;
      assert (n - 2) * c + c == (n - 1) * c;
    }
  }

  /** A printer that writes a comma before an item once something has been printed keeps the list separated. */
  lemma SeparatedStep(prefix: seq<Piece>, out: seq<Piece>, items: seq<seq<Piece>>, item: seq<Piece>, printed: bool)
    requires printed <==> items != []
    requires out == prefix + Joined(items, Comma)
    ensures (if printed then out + Comma else out) + item == prefix + Joined(items + [item], Comma)
  {
    JoinedAppend(items, item, Comma);
  }

  /** One more item: what the loops of the printers append in one iteration. */
  lemma JoinedStep(prefix: seq<Piece>, items: seq<seq<Piece>>, i: nat, sep: seq<Piece>)
    requires i < |items|
    ensures prefix + Joined(items[..i + 1], sep) == prefix + Joined(items[..i], sep) + (if i == 0 then [] else sep) + items[i]
  {
    assert items[..i + 1] == items[..i] + [items[i]];
    JoinedAppend(items[..i], items[i], sep);
  }

  // ---------------------------------------------------------------------------
  // Values as printed
  // ---------------------------------------------------------------------------

  /** An arc capacity as printed: -1 when infinite, the number otherwise. */
  function CapacityPiece(c: Ext): Piece
  {
    if c == Inf then Number(-1) else Number(c.n)
  }

  /** Reads a printed capacity back, taking -1 for infinity. */
  function CapacityFromPiece(p: Piece): Option<Ext>
  {
    match p
    case Number(v) => if v == -1 then Some(Inf) else Some(Fin(v))
    case Text(_) => None
  }

  /**
   * The capacity is read back as written for every capacity except the
   * finite -1, which prints exactly as infinity does.
   */
  lemma CapacityPieceRoundTrip(c: Ext)
    ensures CapacityFromPiece(CapacityPiece(c)) == Some(c) <==> c != Fin(-1)
    ensures CapacityPiece(Fin(-1)) == CapacityPiece(Inf)
  {
  }

  /** A cost as printed: the number when below infinity, `null` otherwise. */
  function CostPiece(c: Ext): Piece
  {
    if Less(c, Inf) then Number(c.n) else Text("null")
  }

  function CostFromPiece(p: Piece): Option<Ext>
  {
    match p
    case Number(v) => Some(Fin(v))
    case Text(s) => if s == "null" then Some(Inf) else None
  }

  /** Every cost, finite or infinite, is read back as written. */
  lemma CostPieceRoundTrip(c: Ext)
    ensures CostFromPiece(CostPiece(c)) == Some(c)
    ensures CostPiece(c) == Text("null") <==> c == Inf
  {
  }

  /** The entry of commodity `k` in an arc's cost map. */
  function CostEntry(k: nat, c: Ext): seq<Piece>
  {
    [Text("\""), Number(k), Text("\""), Text(" : "), CostPiece(c)]
  }

  /** The cost entries of arc `j`, one per commodity, in commodity order. */
  function CostEntries(g: Network, j: nat): (entries: seq<seq<Piece>>)
    requires g.WellFormed() && j < g.nrArcs
    ensures |entries| == g.nrComm
    ensures forall k :: 0 <= k < g.nrComm ==> entries[k] == CostEntry(k, g.cost[k][j])
  {
    seq(g.nrComm, k requires 0 <= k < g.nrComm => CostEntry(k, g.cost[k][j]))
  }

  /** The commodities below `n` with a nonzero deficit at node `i`, in increasing order. */
  function Nonzero(g: Network, i: nat, n: nat): (ks: seq<nat>)
    requires g.WellFormed() && i < g.nrNodes && n <= g.nrComm
    ensures forall t :: 0 <= t < |ks| ==> ks[t] < n
  {
    if n == 0 then []
    else Nonzero(g, i, n - 1) + (if g.deficit[n - 1][i] != 0 then [n - 1] else [])
  }

  /** `Nonzero` lists exactly the commodities with a nonzero deficit, each once, in increasing order. */
  lemma {:induction false} NonzeroExactly(g: Network, i: nat, n: nat)
    requires g.WellFormed() && i < g.nrNodes && n <= g.nrComm
    ensures forall k :: k in Nonzero(g, i, n) <==> 0 <= k < n && g.deficit[k][i] != 0
    ensures forall s, t :: 0 <= s < t < |Nonzero(g, i, n)| ==> Nonzero(g, i, n)[s] < Nonzero(g, i, n)[t]
  {
    if n > 0 {
      var prev := Nonzero(g, i, n - 1);
      NonzeroExactly(g, i, n - 1);
      if g.deficit[n - 1][i] != 0 {
        assert Nonzero(g, i, n) == prev + [n - 1];
      } else {
        assert Nonzero(g, i, n) == prev;
      }
    }
  }

  // ---------------------------------------------------------------------------
  // Layout of the two printers
  // ---------------------------------------------------------------------------

  /** Everything before the first arc. */
  function Header(style: Style, g: Network): seq<Piece>
  {
    match style
    case JsonStyle =>
      [Text("{\n"), Text("  \"info\" : {\n"),
       Text("    \"no_nodes\": "), Number(g.nrNodes), Text(",\n"),
       Text("    \"no_arcs\": "), Number(g.nrArcs), Text(",\n"),
       Text("    \"no_commodities\": "), Number(g.nrComm), Text("\n"),
       Text("  },\n"), Text("  \"arcs\" : [\n")]
    case NetworkStyle =>
      [Text("{\n"), Text("\"info\" : \n"), Text("{\n"),
       Text("\"no_nodes\": "), Number(g.nrNodes), Text(",\n"),
       Text("\"no_arcs\": "), Number(g.nrArcs), Text(",\n"),
       Text("\"no_commodities\": "), Number(g.nrComm), Text("\n"),
       Text("},\n"), Text("\"arcs\" : \n"), Text("[\n")]
  }

  /** One arc: its end nodes as stored, its capacity and its cost map. */
  function ArcText(style: Style, from: int, to: int, capacity: Piece, costs: seq<Piece>): seq<Piece>
  {
    match style
    case JsonStyle =>
      [Text("    { "), Text("\"from\": "), Number(from), Text(", \"to\": "), Number(to), Text(","),
       Text(" \"capacity\": "), capacity, Text(",\n"), Text("      \"cost\": {")]
      + costs + [Text("}\n"), Text("    }")]
    case NetworkStyle =>
      [Text("{ "), Text(" \"from\":"), Number(from), Text(", \"to\": "), Number(to), Text(","),
       Text("\"capacity\" :"), capacity, Text(",\n"), Text("\"cost\" : {")]
      + costs + [Text("}\n"), Text("}")]
  }

  /** Between the last arc and the first node. */
  function Middle(style: Style): seq<Piece>
  {
    match style
    case JsonStyle => [Text("\n"), Text("  ],\n"), Text("  \"demands\": {")]
    case NetworkStyle => [Text("],\n"), Text("\"demands\": {")]
  }

  /** The opening of the demand map of node `i`, keyed by its 1-based number. */
  function DemandOpen(style: Style, i: nat): seq<Piece>
  {
    match style
    case JsonStyle => [Text("\""), Number(i + 1), Text("\": {\n")]
    case NetworkStyle => [Text("\""), Number(i + 1), Text("\""), Text(": { \n")]
  }

  function DemandEntry(style: Style, k: nat, deficit: int): seq<Piece>
  {
    match style
    case JsonStyle => [Text("      \""), Number(k), Text("\": "), Number(deficit), Text("\n")]
    case NetworkStyle => [Text("\t\""), Number(k), Text("\" : "), Number(deficit), Text("\n")]
  }

  function DemandClose(style: Style): seq<Piece>
  {
    match style
    case JsonStyle => [Text("    }")]
    case NetworkStyle => [Text("}\n")]
  }

  /** Everything after the last node. */
  function Trailer(style: Style): seq<Piece>
  {
    match style
    case JsonStyle => [Text("\n"), Text("  }\n"), Text("}\n")]
    case NetworkStyle => [Text("}"), Text("}\n")]
  }

  // ---------------------------------------------------------------------------
  // The printed network
  // ---------------------------------------------------------------------------

  /** Arc `j` as printed: its capacity follows the -1 rule, its costs the null rule. */
  function ArcPieces(g: Network, style: Style, j: nat): seq<Piece>
    requires g.WellFormed() && j < g.nrArcs
  {
    ArcText(style, g.startN[j], g.endN[j], CapacityPiece(ArcCapacity(g, j)), Joined(CostEntries(g, j), Comma))
  }

  function ArcItems(g: Network, style: Style): (items: seq<seq<Piece>>)
    requires g.WellFormed()
    ensures |items| == g.nrArcs
    ensures forall j :: 0 <= j < g.nrArcs ==> items[j] == ArcPieces(g, style, j)
  {
    seq(g.nrArcs, j requires 0 <= j < g.nrArcs => ArcPieces(g, style, j))
  }

  /** The entries of node `i`'s demand map for the commodities `ks`. */
  function DemandEntries(g: Network, style: Style, i: nat, ks: seq<nat>): (entries: seq<seq<Piece>>)
    requires g.WellFormed() && i < g.nrNodes
    requires forall t :: 0 <= t < |ks| ==> ks[t] < g.nrComm
    ensures |entries| == |ks|
    ensures forall t :: 0 <= t < |ks| ==> entries[t] == DemandEntry(style, ks[t], g.deficit[ks[t]][i])
  {
    seq(|ks|, t requires 0 <= t < |ks| => DemandEntry(style, ks[t], g.deficit[ks[t]][i]))
  }

  /** Node `i`'s demand map: its 1-based number, then only the nonzero deficits, comma-separated. */
  function DemandPieces(g: Network, style: Style, i: nat): seq<Piece>
    requires g.WellFormed() && i < g.nrNodes
  {
    DemandOpen(style, i) + Joined(DemandEntries(g, style, i, Nonzero(g, i, g.nrComm)), Comma) + DemandClose(style)
  }

  function DemandItems(g: Network, style: Style): (items: seq<seq<Piece>>)
    requires g.WellFormed()
    ensures |items| == g.nrNodes
    ensures forall i :: 0 <= i < g.nrNodes ==> items[i] == DemandPieces(g, style, i)
  {
    seq(g.nrNodes, i requires 0 <= i < g.nrNodes => DemandPieces(g, style, i))
  }

  /** The whole printed network: header, comma-separated arcs, comma-separated node demands, trailer. */
  function NetworkText(g: Network, style: Style): seq<Piece>
    requires g.WellFormed()
  {
    Header(style, g) + Joined(ArcItems(g, style), Comma) + Middle(style)
      + Joined(DemandItems(g, style), Comma) + Trailer(style)
  }

  // ---------------------------------------------------------------------------
  // The printers
  // ---------------------------------------------------------------------------

  /** The cost loop of both printers: an entry per commodity, a comma once one has been printed. */
  method WriteCosts(g: Network, j: nat) returns (out: seq<Piece>)
    requires g.WellFormed() && j < g.nrArcs
    ensures out == Joined(CostEntries(g, j), Comma)
  {
    ghost var entries := CostEntries(g, j);
    out := [];
    var printed := false;
    var k := 0;
    while k < g.nrComm
      invariant 0 <= k <= g.nrComm
      invariant printed <==> k > 0
      invariant out == Joined(entries[..k], Comma)
    {
      if printed {
        out := out + Comma;
      }
      var cost := g.cost[k][j];
      if Less(cost, Inf) {
        out := out + [Text("\""), Number(k), Text("\""), Text(" : "), Number(cost.n)];
      } else {
        out := out + [Text("\""), Number(k), Text("\""), Text(" : "), Text("null")];
      }
      assert entries[..k + 1] == entries[..k] + [entries[k]];
      JoinedAppend(entries[..k], entries[k], Comma);
      printed := true;
      k := k + 1;
    }
    assert entries[..k] == entries;
  }

  /** One commodity further: the entries of node `i` grow by commodity `k`'s exactly when its deficit is nonzero. */
  lemma DemandEntriesStep(g: Network, style: Style, i: nat, k: nat)
    requires g.WellFormed() && i < g.nrNodes && k < g.nrComm
    ensures DemandEntries(g, style, i, Nonzero(g, i, k + 1)) ==
        DemandEntries(g, style, i, Nonzero(g, i, k))
        + (if g.deficit[k][i] != 0 then [DemandEntry(style, k, g.deficit[k][i])] else [])
  {
  }

  /** The demand loop of both printers for node `i`: a comma only between printed entries. */
  method WriteDemand(g: Network, style: Style, i: nat) returns (out: seq<Piece>)
    requires g.WellFormed() && i < g.nrNodes
    ensures out == DemandPieces(g, style, i)
  {
    out := DemandOpen(style, i);
    var printed := false;
    var k := 0;
    ghost var entries: seq<seq<Piece>> := [];
    while k < g.nrComm
      invariant 0 <= k <= g.nrComm
      invariant entries == DemandEntries(g, style, i, Nonzero(g, i, k))
      invariant printed <==> entries != []
      invariant out == DemandOpen(style, i) + Joined(entries, Comma)
    {
      var deficit := g.deficit[k][i];
      DemandEntriesStep(g, style, i, k);
      if deficit != 0 {
        var entry := DemandEntry(style, k, deficit);
        SeparatedStep(DemandOpen(style, i), out, entries, entry, printed);
        if printed {
          out := out + Comma;
        }
        out := out + entry;
        printed := true;
        entries := entries + [entry];
      }
      k := k + 1;
    }
    out := out + DemandClose(style);
    assert k == g.nrComm;
    assert out == DemandOpen(style, i) + Joined(DemandEntries(g, style, i, Nonzero(g, i, g.nrComm)), Comma) + DemandClose(style);
  }

  /** The arc loop of both printers: the arcs in order, a comma before all but the first. */
  method WriteArcs(g: Network, style: Style, prefix: seq<Piece>) returns (out: seq<Piece>)
    requires g.WellFormed()
    ensures out == prefix + Joined(ArcItems(g, style), Comma)
  {
    ghost var arcs := ArcItems(g, style);
    out := prefix;
    var i := 0;
    while i < g.nrArcs
      invariant 0 <= i <= g.nrArcs
      invariant out == prefix + Joined(arcs[..i], Comma)
    {
      ghost var before := out;
      if i > 0 {
        out := out + Comma;
      }
      var sumCapacity := SumCapacity(g, i);
      var arcCapacity := Min(sumCapacity, g.totCap[i]);
      var costs := WriteCosts(g, i);
      var arc := ArcText(style, g.startN[i], g.endN[i], CapacityPiece(arcCapacity), costs);
      assert arc == arcs[i] by {
        assert arcCapacity == ArcCapacity(g, i);
      }
      out := out + arc;
      assert out == before + (if i == 0 then [] else Comma) + arcs[i];
      JoinedStep(prefix, arcs, i, Comma);
      i := i + 1;
    }
    assert arcs[..i] == arcs;
  }

  /** The node loop of both printers: one demand map per node, a comma before all but the first. */
  method WriteDemands(g: Network, style: Style, prefix: seq<Piece>) returns (out: seq<Piece>)
    requires g.WellFormed()
    ensures out == prefix + Joined(DemandItems(g, style), Comma)
  {
    ghost var nodes := DemandItems(g, style);
    out := prefix;
    var i := 0;
    while i < g.nrNodes
      invariant 0 <= i <= g.nrNodes
      invariant out == prefix + Joined(nodes[..i], Comma)
    {
      ghost var before := out;
      if i > 0 {
        out := out + Comma;
      }
      var demand := WriteDemand(g, style, i);
      out := out + demand;
      assert out == before + (if i == 0 then [] else Comma) + nodes[i];
      JoinedStep(prefix, nodes, i, Comma);
      i := i + 1;
    }
    assert nodes[..i] == nodes;
  }

  /** `print_network_json` (`JsonStyle`) and `print_network` (`NetworkStyle`). */
  method WriteNetwork(g: Network, style: Style) returns (out: seq<Piece>)
    requires g.WellFormed()
    ensures out == NetworkText(g, style)
  {
    out := Header(style, g);
    out := WriteArcs(g, style, out);
    out := out + Middle(style);
    out := WriteDemands(g, style, out);
    out := out + Trailer(style);
  }

  // ---------------------------------------------------------------------------
  // Unified costs
  // ---------------------------------------------------------------------------

  /** `is_unified_cost`: at most one commodity, or every arc's costs all equal commodity 0's. */
  method IsUnifiedCost(g: Network) returns (unified: bool)
    requires g.WellFormed()
    ensures unified <==> UnifiedCosts(g)
    ensures g.nrComm <= 1 ==> unified
  {
    if g.nrComm <= 1 {
      return true;
    }
    var j := 0;
    while j < g.nrArcs
      invariant 0 <= j <= g.nrArcs
      invariant forall j', k :: 0 <= j' < j && 0 <= k < g.nrComm ==> g.cost[k][j'] == g.cost[0][j']
    {
      var first := g.cost[0][j];
      var k := 1;
      while k < g.nrComm
        invariant 1 <= k <= g.nrComm
        invariant forall k' :: 0 <= k' < k ==> g.cost[k'][j] == first
      {
        if g.cost[k][j] != first {
          return false;
        }
        k := k + 1;
      }
      j := j + 1;
    }
    return true;
  }

  // ---------------------------------------------------------------------------
  // The command line
  // ---------------------------------------------------------------------------

  /** One option as `getopt` returns it for "hi:f:co:"; anything else is `Unrecognized`. */
  datatype Opt =
    | Help
    | Input(file: string)
    | Format(arg: string)
    | CheckCost
    | OutputType(name: string)
    | Unrecognized

  function StopOf(o: Opt): Option<Stop>
  {
    match o
    case Help => Some(HelpRequested)
    case Format(arg) => if FormatChar(arg) in FormatLetters then None else Some(InvalidFormat)
    case OutputType(name) => if name == "json" || name == "network" then None else Some(InvalidOutputFormat)
    case Unrecognized => Some(UnknownOption)
    case _ => None
  }

  function PickInput(o: Opt): Option<string> { if o.Input? then Some(o.file) else None }
  function PickFormat(o: Opt): Option<char> { if o.Format? then Some(FormatChar(o.arg)) else None }
  function PickCheckCost(o: Opt): Option<bool> { if o.CheckCost? then Some(true) else None }
  function PickOutputType(o: Opt): Option<string> { if o.OutputType? then Some(o.name) else None }

  datatype Settings = Settings(input: string, format: char, checkCost: bool, outputType: string)

  /** Each setting is its option's last value, or the initial value when the option is absent. */
  function SettingsOf(args: seq<Opt>): Settings
  {
    Settings(
      Last(args, PickInput, ""),
      Last(args, PickFormat, '\0'),
      Last(args, PickCheckCost, false),
      Last(args, PickOutputType, "json"))
  }

  /** The `getopt` loop of `main`. */
  method ParseArgs(args: seq<Opt>) returns (r: Result<Settings, Stop>)
    ensures FirstStop(args, StopOf).Some? ==> r == Failure(FirstStop(args, StopOf).value)
    ensures FirstStop(args, StopOf).None? ==> r == Success(SettingsOf(args))
  {
    var input, format, checkCost, outputType := "", '\0', false, "json";
    var i := 0;
    while i < |args|
      invariant 0 <= i <= |args|
      invariant FirstStop(args[..i], StopOf).None?
      invariant Settings(input, format, checkCost, outputType) == SettingsOf(args[..i])
    {
      assert args[..i + 1][..i] == args[..i];
      if StopOf(args[i]).Some? {
        FirstStopOfPrefix(args, StopOf, i + 1);
        return Failure(StopOf(args[i]).value);
      }
      match args[i] {
        case Input(file) => input := file;
        case Format(arg) => format := FormatChar(arg);
        case CheckCost => checkCost := true;
        case OutputType(name) => outputType := name;
        case _ =>
      }
      i := i + 1;
    }
    assert args[..i] == args;
    return Success(Settings(input, format, checkCost, outputType));
  }

  /** What one run of the tool does. */
  datatype Outcome =
    | HelpShown
    | BadArguments(stop: Stop)
    | MissingArguments
    | CostReport(unified: bool)
    | Printed(text: seq<Piece>)           // the network on standard output
    | NotImplemented(outputType: string)  // message on standard error

  function ExitCode(o: Outcome): int
  {
    match o
    case HelpShown => ExitSuccess
    case BadArguments(_) => ExitFailure
    case MissingArguments => ExitFailure
    case CostReport(unified) => if unified then ExitSuccess else ExitFailure
    case Printed(_) => ExitSuccess
    case NotImplemented(_) => ExitSuccess
  }

  /** `main`. `g` is the network the reader builds from the input file in the chosen format. */
  method Run(args: seq<Opt>, g: Network) returns (o: Outcome)
    requires g.WellFormed()
    ensures FirstStop(args, StopOf) == Some(HelpRequested) ==> o == HelpShown && ExitCode(o) == ExitSuccess
    ensures FirstStop(args, StopOf).Some? && FirstStop(args, StopOf) != Some(HelpRequested) ==>
      o == BadArguments(FirstStop(args, StopOf).value) && ExitCode(o) == ExitFailure
    ensures var s := SettingsOf(args);
      FirstStop(args, StopOf).None? && (s.input == "" || s.format == '\0') ==>
        o == MissingArguments && ExitCode(o) == ExitFailure
    ensures var s := SettingsOf(args);
      FirstStop(args, StopOf).None? && s.input != "" && s.format != '\0' ==>
        && (s.checkCost ==> o == CostReport(UnifiedCosts(g)))
        && (!s.checkCost && s.outputType == "json" ==> o == Printed(NetworkText(g, JsonStyle)))
        && (!s.checkCost && s.outputType == "network" ==> o == Printed(NetworkText(g, NetworkStyle)))
    ensures o.CostReport? ==> (ExitCode(o) == ExitFailure <==> !UnifiedCosts(g))
  {
    var parsed := ParseArgs(args);
    if parsed.Failure? {
      if parsed.error == HelpRequested {
        return HelpShown;
      }
      return BadArguments(parsed.error);
    }
    var s := parsed.value;
    if s.input == "" || s.format == '\0' {
      return MissingArguments;
    }
    if s.checkCost {
      var unified := IsUnifiedCost(g);
      return CostReport(unified);
    }
    if s.outputType == "json" {
      var text := WriteNetwork(g, JsonStyle);
      o := Printed(text);
    } else if s.outputType == "network" {
      var text := WriteNetwork(g, NetworkStyle);
      o := Printed(text);
    } else {
      o := NotImplemented(s.outputType);
    }
  }
}
