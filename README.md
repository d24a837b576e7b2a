# Configuration bootstrap of cluster-membership-go, in Dafny

This project models how a cluster-membership node builds its configuration
at start-up:

- **List arguments.** `ArgStringList` is the comma-separated list type used on the command line. `Set` splits a raw value on `,`. `String` joins the values back with `common.ArrayToString`.
- **`Validate`.** It checks the command line in a fixed order: mode, config path, equal list lengths, then no empty element in the `id`, `address`, `protocol.port` and `server.port` lists (`common.CheckNonEmpty`). It then calls `buildConf`.
- **`buildConf`.** It zips the four lists position by position into seed nodes, converting the ports with `strconv.Atoi`. It stops at the first conversion error and passes that error through unchanged. It then makes the config path absolute.
- **`AddProgramConfig`.** It fills the eight runtime tunables and the current node of a `Configuration` in place, from the loaded properties file. Absent or unreadable keys fall back to a defaults table. It then checks the current node in a fixed order.

Modules, one per file:

| file | module | contents |
|---|---|---|
| `strings.dfy` | `Strings` | `strings.Split(s, ",")`, `strings.Trim(s, " ")` and `strings.ToUpper`, each with its reference properties |
| `common.dfy` | `Common` | the error kinds (`ArgumentParsingError`, `*strconv.NumError`, `*fs.PathError`, `BaseError`), `Result`/`Option`, `Join` as the specification of `ArrayToString`, and the two loops of `src/common/utils.go` |
| `strconv.dfy` | `Strconv` | `strconv.ParseInt(s, 10, 64)` and `strconv.Atoi` for a 64-bit `int`, with the digit loop's error order (syntax or range, whichever comes first), proved against the reference reading "optional sign, then decimal digits, value in 64 bits"; `Itoa` for round trips |
| `properties.dfy` | `Properties` | the loaded properties file as a `map<string, string>`, with `GetString` and `GetInt` (the default is used when the key is missing or its value does not parse) |
| `config.dfy` | `Config` | `Node`, the `ArgStringList` and `Configuration` classes, the check chain of `Validate`, the `buildConf` loop over a node array, and `AddProgramConfig` mutating the configuration |
| `scenarios.dfy` | `Scenarios` | the command lines and properties file of the repository's test suite, evaluated on the model |

In Go, `Validate` and `buildConf` return a `(Configuration, error)` pair. The model returns the same pair: on every error the configuration is the zero `Configuration` (`NilConfig`). Their behaviour is specified by pure functions:

- `ShapeError`: the first failing shape check;
- `SeedNodes`: the node list or the first conversion error;
- `Built`: what `buildConf` leaves behind.

Lemmas then state what those functions mean in terms of the inputs.

## Model

| member | source | states |
|---|---|---|
| Strings.SplitPieces | src/config/project_env.go:70 | a split has one more piece than the raw value has commas, so it is never empty, and no piece contains a comma |
| Strings.SplitAfterPiece | src/config/project_env.go:70 | a comma-free string is one piece, and a comma after such a piece starts the next piece |
| Strings.TrimSpec | src/config/project_env.go:89 | trimming spaces gives the empty string exactly when the input is all spaces; the result has no space at either end, and it is the input with a run of spaces removed at each end and nothing else removed |
| Common.ArrayToString | src/common/utils.go:6-12 | the loop builds the first element, then the separator and the next element for each further one (`Join`); it needs a non-empty list |
| Common.JoinSnoc | src/common/utils.go:8-10 | each loop step appends exactly one separator and the next element |
| Common.JoinShape | src/common/utils.go:7-11 | the result's length is the sum of the element lengths plus `n - 1` separators; a one-element list is returned unchanged |
| Common.JoinAt | src/common/utils.go:7-11 | cutting the list at any inner boundary cuts the result around exactly one separator, so there is one separator between neighbours and none at either end |
| Common.CheckNonEmpty | src/common/utils.go:15-22 | no error exactly when every element is non-empty (so an empty list passes); otherwise an ArgumentParsingError with the message naming the list |
| Common.EmptyElementMessageNamesField | src/common/utils.go:18 | the error message contains the list's name |
| Strconv.ScanUintValue | src/config/project_env.go:113 | the digit loop of `Atoi` gives a range error exactly when the value of the digits exceeds 2^64 - 1, and otherwise gives that value |
| Strconv.ParseIntSpec | src/config/project_env.go:136-148 | `ParseInt(s, 10, 64)` succeeds exactly on an optional sign followed by digits whose value fits in 64 bits, and returns that value; a decimal out of range is a range error |
| Strconv.AtoiSpec | src/config/project_env.go:113-120 | `Atoi` succeeds exactly on 64-bit decimal strings, with their value; otherwise it returns a *NumError from "Atoi" that carries the input string |
| Strconv.AtoiFormatInt | src/config/project_env.go:113 | every 64-bit integer, written in decimal, converts back to itself |
| Properties.GetIntSpec | src/config/project_env.go:136-148 | `GetInt` returns the file's value when the key holds a 64-bit decimal, and the default otherwise |
| Properties.GetIntFormatted | src/config/project_env.go:136-148 | a key holding a decimal-written integer reads back as that integer |
| Config.ArgStringList.constructor | src/config/project_env.go:58-61 | the zero value has no values |
| Config.ArgStringList.Set | src/config/project_env.go:69-76 | the values become the comma split of the argument; no error is ever returned, because the split has at least one piece |
| Config.ArgStringList.StringAsWritten | src/config/project_env.go:79-81 | `String` as written: the values joined with `,`; it can only be called when there is at least one value, because ArrayToString reads the first one |
| Config.ArgStringList.String | src/config/project_env.go:79-81 | `String` corrected (see Findings): the text of the list, that is the values joined with `,`, or the empty string when there are none |
| Config.RegisterListFlag | app/main.go:12-19 | a newly registered list flag has no values, so String as written cannot be called on it; the corrected String records "" as its default |
| Config.ZeroListNotPrintable | src/common/utils.go:7 | the zero list is outside String as written, and the corrected String prints it as "", the same text as a list set from "" |
| Config.PrintedSpec | src/config/project_env.go:79-81 | the corrected String agrees with String as written wherever that can be called, and prints "" only for no values or one empty value |
| Config.PrintedInvertsSet | src/config/project_env.go:69-81 | the corrected String still returns exactly the raw string that Set was given |
| Config.StringInvertsSet | src/config/project_env.go:69-81 | printing a list argument gives back exactly the raw string it was set from |
| Config.SetInvertsString | src/config/project_env.go:69-81 | setting a list argument from a printed list gives back the list, when no value contains a comma |
| Config.Configuration.Nil | src/config/project_env.go:32-33 | the zero configuration: every field is empty or zero |
| Config.Configuration.Assembled | src/config/project_env.go:128 | holds the mode, the nodes and the path; the tunables and the current node keep their zero values |
| Config.ModeAcceptedIff | src/config/project_env.go:86-87 | the mode check accepts exactly "RUNNING" and "TEST"; it is case-sensitive, so "running" and "TESTING" are rejected |
| Config.ShapeErrorSpec | src/config/project_env.go:86-103 | every shape error is an ArgumentParsingError. The order is: mode, then path (all spaces means empty), then equal lengths (before any element is looked at), then the id, address, protocol.port and server.port lists, naming the first list that holds an empty string. The checks pass exactly when all of these hold |
| Config.PortsConvertSpec | src/config/project_env.go:113-120 | both ports of a position convert exactly when both are 64-bit decimals, with those values; otherwise the protocol port's error comes first and it is a *NumError from "Atoi" |
| Config.SeedNodesFromSuccess | src/config/project_env.go:112-120 | from any position on, the node list is built exactly when every remaining port converts |
| Config.SeedNodesFromValues | src/config/project_env.go:112-122 | from any position on, a built list has one node per remaining position, in order, each made by NodeAt from its position |
| Config.NodeAtSpec | src/config/project_env.go:113-121 | both ports at one position convert exactly when both are 64-bit decimals, and the node is then built from the id, the address and the ports' decimal values |
| Config.SeedNodesFromFailure | src/config/project_env.go:112-120 | a failure carries the error of the first position whose ports do not both convert |
| Config.SeedNodesSpec | src/config/project_env.go:111-122 | success exactly when every port is a 64-bit decimal; then one node per position, in input order, with node k built from the k-th id, address and ports (no node for empty lists) |
| Config.SeedNodesFirstError | src/config/project_env.go:112-120 | a failure carries the unwrapped *NumError from "Atoi" of the first bad port, scanning positions upward and checking the protocol port first |
| Config.PrependTwice | src/config/project_env.go:121 | adding nodes in two steps equals adding them at once (the array fill's step) |
| Config.BuildConf | src/config/project_env.go:109-130 | the loop over the node array gives exactly `SeedNodes`'s list or its first error, with the zero configuration and no partial list. The path error of `abs` is passed through the same way. Otherwise the configuration holds the mode, the nodes and the absolute path |
| Config.Validate | src/config/project_env.go:84-107 | a failing shape check returns its error with the zero configuration; otherwise the result is that of buildConf. On success the mode is "RUNNING" or "TEST" and the input mode, the lists have equal lengths, and seed node k is built from position k with decimal ports. On any error the configuration is the zero one |
| Config.LoadTunablesSpec | src/config/project_env.go:136-143 | each tunable is the file's value when its key holds a 64-bit decimal, and otherwise its default (3000, 1000, 3, 3, 1000000, 2147483647, 3, 3) |
| Config.LoadTunablesRoundTrip | src/config/project_env.go:136-143 | a file that holds decimal values for all eight keys loads as exactly those values, whatever other keys it has |
| Config.CurrentNodeSpec | src/config/project_env.go:144-162 | the current node is accepted exactly when id and address are present and not all spaces and both ports are non-negative 64-bit decimals. Otherwise the error is a BaseError for the first failing check, in the order id, address, protocol.port, server.port |
| Config.AddProgramConfig | src/config/project_env.go:133-165 | writes the eight tunables (`LoadTunables`) and the current node (trimmed id and address, ports defaulting to -1) before checking. It returns the check's error, leaves mode, seed nodes and path unchanged, and overwrites the fields even when it fails |
| Scenarios.TwoNodeArguments | app/main_test.go:59-68 | the raw list values of the two-node command line split into the expected lists |
| Scenarios.BadArguments | app/main_test.go:89-143 | the raw list values of the failing command lines split into the expected lists |
| Scenarios.TwoNodeShape | app/main_test.go:59-74 | the shape checks pass on the two-node command line |
| Scenarios.TwoSeedNodes | app/main_test.go:76-82 | two positions give nodes (id1, ad1, 20, 22) and (id2, ad2, 21, 23) |
| Scenarios.NonNumericPort | app/main_test.go:112-133 | the server port "ii23d" stops buildConf with Atoi's syntax error on that string |
| Scenarios.DifferentListSizes | app/main_test.go:89-156 | 1 id against 2 addresses, and 2 protocol ports against 1 server port, both give the length error |
| Scenarios.NodeOnlyFileTunables | app/main_test.go:185-217 | a file with only the current node's four keys keeps every tunable at its default |
| Scenarios.NodeOnlyFileCurrentNode | app/main_test.go:219-222 | that file yields the current node (A, localhost, 7001, 6001) with no error |

## Left out

- `app/main.go` and `src/app/main.go` are not part of this model, apart from the registration of a list flag (`Config.RegisterListFlag`). They hold flag registration, the process entry point and printing, which is I/O over Go's `flag` package.
- `ArgStringList.IsBoolFlag` is left out. It is a constant `false` that only serves the `flag.Value` interface.
- The `Validate` and `BuildConf` models take the four `Values` sequences, not the `ArgStringList` structs. Go passes those structs by value and reads only their `Values`.
- Reading the properties file (`properties.MustLoadFile`) is left out:
  - The file is given as a key/value map.
  - A missing or unreadable file makes Go panic; the model does not cover that.
  - The library's file syntax and its `${key}` expansion are not modelled.
- `filepath.Abs` depends on the working directory, so it is a parameter `abs` of `BuildConf` and `Validate`. The model covers only how its result or error is passed on.
- `src/model` (the `Node` struct) is not part of this model. `Node` carries the four fields that `buildConf` and `AddProgramConfig` set.
- `TraceableError.Error` in `src/common/common.go` is left out: it calls itself whenever it wraps an error, so it never terminates. The other `Error()` methods only return their message, which is the field of the matching `Error` constructor.
- `src/app/main_test.go` is left out: it calls a five-argument `Validate` and uses fields and error types that the code does not declare.
- `app/main_test.go:161` reads the `../resources/app.properties` fixture, which is not part of this model. `Scenarios.NodeOnlyFileTunables` and `Scenarios.NodeOnlyFileCurrentNode` assume a file holding only the four current-node keys with the expected values.
- Strings.ToUpper: only ASCII letters are upper-cased. It is applied only to the ASCII constants "RUNNING" and "TEST".
- Strconv.Atoi: Go's `int` is taken to be 64 bits wide. On a 32-bit platform the range limits would differ.
- Common.ArrayToString: requires a non-empty list. Go reads `array[0]` unconditionally and panics on an empty one.
- Config.ArgStringList.StringAsWritten: requires at least one value for the same reason. The zero `ArgStringList{}` has none, and it reaches `String` when the flags are registered, before any `Set` (see Findings). The rest of the model uses the corrected `Config.ArgStringList.String`.
- Config.BuildConf: requires the address and port lists to be at least as long as the id list. Go would panic on a shorter one; `Validate` has already checked that the lengths are equal.

## Behaviour worth knowing

- **Mode.** Only exactly "RUNNING" and "TEST" pass. The code upper-cases the constants "RUNNING" and "TEST" but never the input (`src/config/project_env.go:49-50,86`), so "running" and "TESTING" are rejected (`Config.ModeAcceptedIff`).
- **Seed ports.** They are not checked for being non-negative (`src/config/project_env.go:113-121`). Only the current node's ports are.
- **Empty lists.** All four lists being empty passes every check and gives a configuration with no seed nodes.
- **`Set`'s error branch.** It is unreachable: a comma split always has at least one piece, so `Set` never fails.

## Findings

| source | as written | input that shows it | evidently intended | confidence | as-written member | corrected member |
|---|---|---|---|---|---|---|
| src/config/project_env.go:79-81 | `String` hands `Values` to `ArrayToString`, which reads element 0 unconditionally (src/common/utils.go:7), so a list with no values panics with an index out of range | the zero `ArgStringList{}` that `createFlags` passes to `flag.Var` (app/main.go:12-19); `flag.Var` calls `String` to record the default before any `Set` (`Config.ZeroListNotPrintable`, `Config.RegisterListFlag`) | `String` returns "" when there are no values, and the values joined with "," otherwise (`Config.PrintedSpec`, `Config.PrintedInvertsSet`) | medium, not executed | Config.ArgStringList.StringAsWritten | Config.ArgStringList.String |
