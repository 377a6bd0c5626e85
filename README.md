# glpsol_trace command-line tools, modelled in Dafny

The repository ships four small C++ programs around a fork of GLPK:

- `convert_problem` reads a multicommodity network. It reports whether the network has unified costs, or writes the network as a JSON document, as MPS, or as three counts.
- `convert` reads the same kind of network. It reports unified costs, or prints the network in one of two JSON-like text layouts.
- `glpsol_trace` validates its command line. It then prints a linear program's row, column and nonzero counts, or starts GLPK's traced exact simplex with a pivoting rule and four trace files.
- `mcfglpk` has the same command line with three differences. A missing model file is not an error, failures do not print the help text, and MPS files are read in the fixed MPS dialect where `glpsol_trace` reads the free dialect. It also has the table of row and column names and an information block built from it. Nothing in the program prints that block: the only call of `print_info` is commented out (src/mcfglpk.cpp:106-109).

This project models the decision and serialisation logic of these programs and proves what it promises.

- **Networks.** A network is the `Network.Network` datatype. It has per-commodity capacity, cost and deficit matrices, the mutual arc capacities and the end nodes. Numbers are `Numbers.Ext`, a finite integer or infinity. A sum reaches infinity as soon as one term is infinite. An arc's capacity is the smaller of its mutual capacity and the saturating sum of its commodity capacities.
- **`convert_problem`'s document.** The JSON document is the `ConvertProblem.Json` tree the tool fills in. Objects are maps keyed by the decimal text of a number (`Digits.Decimal`), the same text `std::to_string` produces. That key text is proved to read back as its number, so distinct numbers give distinct keys.
- **`convert`'s text.** The printers of `convert` produce a sequence of `Convert.Piece`s. A piece is a literal text or a number written with `<<`. Both printers are one method, `Convert.WriteNetwork`, parameterised by the layout (`Convert.Style`). Its result is proved equal to `Convert.NetworkText`: a header, the comma-separated arcs, the comma-separated node demand maps, and a trailer.
- **`getopt` option loops.** An option loop is modelled over the sequence of options in the order `getopt` returns them. `Getopt.FirstStop` is the first option that ends the loop (help, an invalid argument, an unknown option). `Getopt.Last` is each setting's last value.
- **The two `cxxopts` drivers.** `glpsol_trace` and `mcfglpk` take the parsed command line (`TraceOptions.Options`) and return a `TraceOptions.Outcome`: usage, a failure and its reason, the information lines, or the configuration the traced solve is started with. Reading a problem file is the function parameter `load`. It is given the file name and the GLPK reader (`TraceOptions.Reader`): LP, free-format MPS or fixed-format MPS. Each driver picks its reader for the format (`GlpsolTrace.ReadProblem`, `Mcfglpk.ReadProblem`).

## Model

| member | source | states |
|---|---|---|
| Numbers.Min | src/convert_problem.cpp:81 | `std::min` returns one of its arguments and is above neither; it is infinite exactly when both are |
| Numbers.SumInfinite | src/convert_problem.cpp:68-75 | the saturating sum of commodity capacities is infinite iff some commodity capacity is infinite |
| Digits.DecimalRoundTrip | src/convert_problem.cpp:94 | the decimal key of a number reads back as that number |
| Digits.DecimalInjective | src/convert_problem.cpp:121-125 | different commodity or node numbers give different keys |
| Getopt.FirstStopOfPrefix | src/convert_problem.cpp:180-217 | once an option has ended the option loop, the options after it change nothing |
| Getopt.FirstStopIsEarliest | src/convert_problem.cpp:180-217 | the option loop is ended iff some option ends it, and then by the first such option |
| Getopt.LastIsLatest | src/convert_problem.cpp:162-212 | each setting keeps its initial value when its option is absent, and otherwise takes the value of the last occurrence |
| Network.ArcCapacityInfinite | src/convert_problem.cpp:68-85 | an arc's capacity is infinite iff its mutual capacity is infinite and some commodity's capacity is infinite |
| Network.SumCapacity | src/convert_problem.cpp:68-75 | the capacity loop, with its break once the sum reaches infinity, computes the saturating sum of the arc's commodity capacities |
| ConvertProblem.IsUnifiedCostArc | src/convert_problem.cpp:15-26 | true iff every commodity's cost on the arc equals commodity 0's |
| ConvertProblem.IsUnifiedCost | src/convert_problem.cpp:28-41 | true iff every arc has unified cost; always true with at most one commodity |
| ConvertProblem.CapacityJsonRoundTrip | src/convert_problem.cpp:81-85 | a capacity is written as the string "null" exactly when infinite, and every capacity reads back as written |
| ConvertProblem.PerCommodityCosts | src/convert_problem.cpp:90-100 | the cost object has exactly the keys "0" to nrComm-1; each holds the cost when below infinity and "null" otherwise |
| ConvertProblem.CollectArcs | src/convert_problem.cpp:54-109 | one object per arc, in arc order: end nodes shifted down by 1 when nodes are numbered from 1, the arc capacity with infinity as "null", and commodity 0's cost |
| ConvertProblem.CollectNodeDemands | src/convert_problem.cpp:117-123 | a node's demand object holds exactly the commodities with a nonzero deficit, each with its deficit, and no other key |
| ConvertProblem.CollectDemands | src/convert_problem.cpp:111-129 | one demand object per node, keyed "0" to nrNodes-1, and no other key |
| ConvertProblem.PrintNetworkJson | src/convert_problem.cpp:131-143 | the document has exactly the members "info", "arcs" and "demands", holding the three counts, the arc objects and the demand objects |
| ConvertProblem.ParseArgs | src/convert_problem.cpp:159-217 | the option loop fails with the first ending option's reason, or yields each setting's last value with "mps" as the default output format |
| ConvertProblem.Run | src/convert_problem.cpp:159-269 | help exits 0 first; a bad option fails; a missing input or format fails; the cost check exits 1 iff costs are not unified; JSON goes to the output file or standard output, except that arcs without any commodity leave commodity 0's cost undefined; MPS without an output file fails; "info" prints the three counts |
| Convert.JoinedCount | src/convert.cpp:42-43 | a list of n items printed with a separator before all but the first holds its items' pieces and n-1 separators |
| Convert.CapacityPieceRoundTrip | src/convert.cpp:56-58 | an infinite capacity is printed as -1; every capacity except a finite -1 reads back as written, and a finite -1 prints like infinity |
| Convert.CostPieceRoundTrip | src/convert.cpp:66-72 | a cost is printed as null exactly when infinite, and every cost reads back as written |
| Convert.NonzeroExactly | src/convert.cpp:87-95 | the demand entries printed for a node are exactly the commodities with a nonzero deficit, each once, in increasing order |
| Convert.WriteCosts | src/convert.cpp:62-74 | the cost loop prints an entry for every commodity in order, with a comma before every entry but the first |
| Convert.WriteDemand | src/convert.cpp:84-96 | a node's demand map is its 1-based number followed by only the nonzero deficits, comma-separated |
| Convert.WriteArcs | src/convert.cpp:41-77 | the arcs are printed in order with a comma before all but the first; each shows its end nodes as stored, its capacity and its costs |
| Convert.WriteDemands | src/convert.cpp:80-97 | one demand map per node, in node order, with a comma before all but the first |
| Convert.WriteNetwork | src/convert.cpp:27-190 | `print_network_json` and `print_network` print exactly the network's text in their layout |
| Convert.IsUnifiedCost | src/convert.cpp:13-25 | true iff every arc's costs all equal commodity 0's; always true with at most one commodity |
| Convert.ParseArgs | src/convert.cpp:205-244 | the option loop fails with the first ending option's reason, or yields each setting's last value with "json" as the default output type |
| Convert.Run | src/convert.cpp:205-281 | help exits 0 first; a bad option fails; a missing input or format fails; the cost check exits 1 iff costs are not unified; "json" and "network" print the network in their layout |
| TraceOptions.ParsePivot | src/glpsol_trace.cpp:198-212 | exactly the names dantzig, bland, best and random select a pivoting rule, and each selects the rule of that name |
| TraceOptions.PivotNameRoundTrip | src/glpsol_trace.cpp:198-212 | every rule is selected by its own name, and different rules have different names |
| TraceOptions.InfoLinesRoundTrip | src/glpsol_trace.cpp:72-78 | the three information lines give back exactly the row, column and nonzero counts |
| GlpsolTrace.Run | src/glpsol_trace.cpp:51-241 | help exits 0 first; a missing model file, a missing pivoting rule (even with `--info`) and an unknown rule each fail and print the help; `--info` prints the three counts without solving; otherwise the solve starts with the model file, the free-format MPS reader iff `--mps` is given (else LP), the four trace file names (empty when absent), the named rule, and bits-only and scale on iff their flags are given |
| Mcfglpk.GetNames | src/mcfglpk.cpp:153-170 | the table has nrows+ncols+1 slots: slot 0 is empty, slots 1 to nrows hold the row names and the next ncols slots the column names |
| Mcfglpk.PrintInfo | src/mcfglpk.cpp:138-151 | the block is the three counts, the start marker, every row then column name (never slot 0), and the end marker |
| Mcfglpk.InfoBlockRoundTrip | src/mcfglpk.cpp:138-151 | the information block gives back the problem's counts and all its names, even names that look like a marker |
| Mcfglpk.Run | src/mcfglpk.cpp:55-262 | help exits 0 first; a missing model file is not an error (the name stays empty); a missing pivoting rule (even with `--info`) or an unknown rule fails without printing the help; `--info` prints the three counts; otherwise the solve starts with the fixed-format MPS reader iff `--mps` is given (else LP) and the same settings as `glpsol_trace` |

## Left out

- Everything inside GLPK is outside this model: reading LP and MPS files, `glp_adv_basis`, creating the trace, the traced exact simplex, and freeing. A run that solves ends in `Solve(config)`, the configuration the solver would be started with. The "DONE" line is not modelled.
- The default simplex and trace parameter records (`DEFAULT_GLP_SMCP`, `GLP_DEFAULT_STMCP`) are not modelled, and neither are the numeric values of GLPK's pivoting-rule and bits-only constants.
- `scale` is modelled as a flag. Both drivers set it from the bits-only constants rather than the scale constants. The model keeps only "on iff `--scale` is given".
- Copying file names into fixed-size basename buffers (`strcpy`) is not modelled. Names of any length are kept as they are.
- Parts of the network reader are not part of this model: reading an input file into a network (the `Graph` class), `MakeSingleSourced`, `PreProcess` and `OutMPSFile`. The network read from the file is a parameter of `Run`. Writing MPS is the outcome `MpsWritten(file)`.
- `Graph::Inf` is modelled as an explicit infinity. A finite number large enough to compare equal to infinity is not modelled. The two number types of `convert`'s two printers are one type here.
- Turning numbers into text with `<<` is not modelled: a printed number is the piece `Number(v)`. Serialising `nlohmann::json` to text is not modelled either: the document is the tree.
- Option parsing is taken as given: `getopt`'s and `cxxopts`' handling of argv (long names, grouped flags, positional arguments, repeated values) is not modelled. `getopt` results are a sequence of options. A `cxxopts` result is a record with the presence of each flag and the value of each value option.
- Help and error texts on the standard streams are not modelled as text. They are outcomes: which error occurred, and whether the help was printed.
- Opening and writing files and the standard streams are not modelled. Where output goes is part of the outcome.
- `convert`'s `format_type` has no initial value when `-f` is absent. It is modelled as starting at `'\0'`, so a missing `-f` is reported as missing arguments, as in `convert_problem`.
- Convert.Run: the "not implemented" branch for an output type other than json and network is modelled but never taken, because the option loop already rejects such a type. Its contract says nothing about that branch.
- The assertion that fails on a format other than LP or MPS, in both drivers' problem readers, is unreachable because the format is always one of the two. It is not modelled.
- Row and column names that GLPK reports as missing (a null pointer turned into a `std::string`) are not modelled. Every row and column has a name.
- ConvertProblem.CollectArcs and ConvertProblem.PrintNetworkJson require at least one commodity when there are arcs. They read commodity 0's cost for every arc, which does not exist otherwise. ConvertProblem.Run accepts every network: on the JSON path such a network gives the outcome `NoCommodityCost`, which has no defined exit status. The cost check, MPS and "info" paths read no cost of a missing commodity.
- ConvertProblem.CollectArcs builds the per-commodity cost object for an arc with differing costs and then discards it. The arc's cost is always commodity 0's. This is modelled as written.
