/**
  The configuration bootstrap of a cluster-membership node: a list
  argument type for the command line, the validation that turns the mode,
  the config path and four parallel seed-node lists into a Configuration,
  and the loader that fills in the tunables and the current node from the
  properties file.
 */
module Config {
  import opened Common
  import opened Strings
  import opened Strconv
  import opened Properties

  // Names of the seed-node list arguments, also the properties keys of the
  // current node.
  const NodeID: string := "id"
  const NodeAddress: string := "address"
  const NodeProtocolPort: string := "protocol.port"
  const NodeServerPort: string := "server.port"

  // The two accepted modes.
  const RunningMode: string := "RUNNING"
  const TestMode: string := "TEST"

  /** Separator used when a list argument is printed back. */
  const ArgListSep: string := ","

  /** model.Node: one participant of the cluster. */
  datatype Node = Node(id: string, address: string, protocolPort: int, serverPort: int)

  // ---------------------------------------------------------------------
  // ArgStringList: a comma-separated list argument
  // ---------------------------------------------------------------------

  /** A multi-valued command-line argument holding the pieces of the last
      raw value it was given. */
  class ArgStringList {
    var values: seq<string>

    /** The zero value `ArgStringList{}` the flag layer starts from. */
    constructor ()
      ensures values == []
    {
      values := [];
    }

    /** `Set`: replaces the values with the raw string split on commas. The
        "no value provided" error is never returned, because a split always
        has at least one piece. */
    method Set(argS: string) returns (err: Option<Error>)
      modifies this
      ensures err == None
      ensures values == Split(argS) && |values| >= 1
    {
      var pieces := Split(argS);
      err := if |pieces| == 0 then Some(BaseError("Field is not valid, no value provided")) else None;
      if err == None {
        values := pieces;
      }
    }

    /** `String` as written: the values go straight to ArrayToString,
        which reads the first value unconditionally, so a list without
        values (the zero value, before any Set) cannot be printed. */
    method StringAsWritten() returns (s: string)
      requires Printable(values)
      ensures s == Join(values, ArgListSep)
    {
      s := ArrayToString(values, ArgListSep);
    }

    /** `String` as intended: the text of the list (`Printed`), which is
        empty for a list without values. */
    method String() returns (s: string)
      ensures s == Printed(values)
    {
      if |values| == 0 {
        s := "";
      } else {
        s := ArrayToString(values, ArgListSep);
      }
    }
  }

  /** What String as written needs of the values: ArrayToString indexes
      the first one. */
  predicate Printable(values: seq<string>)
  {
    |values| >= 1
  }

  /** The text of a list argument: its values joined with commas, or the
      empty string when it has none. */
  function Printed(values: seq<string>): string
  {
    if values == [] then "" else Join(values, ArgListSep)
  }

  /** A new list argument, as the flag layer registers it: `flag.Var`
      records its text as the flag's default before any Set, at a point
      where String as written cannot be called. */
  method RegisterListFlag() returns (list: ArgStringList, defValue: string)
    ensures fresh(list) && list.values == [] && !Printable(list.values)
    ensures defValue == ""
  {
    list := new ArgStringList();
    defValue := list.String();
  }

  /** The zero list is outside String as written, while the corrected
      String prints it as the empty string, the same text as a list set
      from the empty string. */
  lemma ZeroListNotPrintable()
    ensures !Printable([]) && Printed([]) == ""
    ensures Printed(Split("")) == Printed([])
  {
    assert Split("") == [""];
  }

  /** The corrected String agrees with String as written wherever the
      latter can be called, and prints the empty string only for a list
      without values or with one empty value. */
  lemma PrintedSpec(values: seq<string>)
    ensures Printable(values) ==> Printed(values) == Join(values, ArgListSep)
    ensures Printed(values) == "" <==> values == [] || values == [""]
  {
    if |values| >= 1 {
      JoinShape(values, ArgListSep);
    }
  }

  /** The corrected String still inverts Set. */
  lemma PrintedInvertsSet(s: string)
    ensures Printed(Split(s)) == s
  {
    StringInvertsSet(s);
  }

  /** Printing a list argument gives back the raw string it was set from. */
  lemma {:induction false} StringInvertsSet(s: string)
    ensures Join(Split(s), ArgListSep) == s
    decreases |s|
  {
    if s != [] {
      var parts, tail := Split(s), Split(s[1..]);
      StringInvertsSet(s[1..]);
      if s[0] == Comma {
        assert parts == [[]] + tail && parts[1..] == tail;
        calc {
          Join(parts, ArgListSep);
          [] + ArgListSep + Join(tail, ArgListSep);
          [Comma] + s[1..];
          s;
        }
      } else {
        var first := [s[0]] + tail[0];
        assert parts == [first] + tail[1..];
        if |tail| == 1 {
          calc {
            Join(parts, ArgListSep);
            first;
            [s[0]] + Join(tail, ArgListSep);
            s;
          }
        } else {
          assert parts[1..] == tail[1..];
          calc {
            Join(parts, ArgListSep);
            first + ArgListSep + Join(tail[1..], ArgListSep);
            [s[0]] + (tail[0] + ArgListSep + Join(tail[1..], ArgListSep));
            [s[0]] + Join(tail, ArgListSep);
            s;
          }
        }
      }
    }
  }

  /** Setting a list argument from a printed list gives back the list, as
      long as no value contains a comma. */
  lemma {:induction false} SetInvertsString(parts: seq<string>)
    requires |parts| >= 1
    requires forall i :: 0 <= i < |parts| ==> Comma !in parts[i]
    ensures Split(Join(parts, ArgListSep)) == parts
    decreases |parts|
  {
    SplitAfterPiece(parts[0], []);
    if |parts| > 1 {
      SetInvertsString(parts[1..]);
      SplitAfterPiece(parts[0], Join(parts[1..], ArgListSep));
    }
  }

  // ---------------------------------------------------------------------
  // Configuration
  // ---------------------------------------------------------------------

  /** The eight runtime tunables read from the properties file. */
  datatype Tunables = Tunables(
    iterationIntervalMs: int,
    connectionTimeoutMs: int,
    readIddleIterationFactor: int,
    cyclesForWaitKeepAlive: int,
    maxRumorLogSize: int,
    maxObjectSize: int,
    clientThreads: int,
    serverThreads: int)

  const ZeroTunables: Tunables := Tunables(0, 0, 0, 0, 0, 0, 0, 0)
  const ZeroNode: Node := Node("", "", 0, 0)

  /** The process-wide settings: Validate fills the mode, the seed nodes
      and the path; AddProgramConfig fills the rest in place. */
  class Configuration {
    var mode: string
    var seedNodes: seq<Node>
    var configPath: string

    var iterationIntervalMs: int
    var connectionTimeoutMs: int
    var readIddleIterationFactor: int
    var cyclesForWaitKeepAlive: int
    var maxRumorLogSize: int
    var maxObjectSize: int
    var clientThreads: int
    var serverThreads: int

    var currentNode: Node

    /** The eight tunable fields as one value. */
    function CurrentTunables(): Tunables
      reads this
    {
      Tunables(iterationIntervalMs, connectionTimeoutMs, readIddleIterationFactor,
               cyclesForWaitKeepAlive, maxRumorLogSize, maxObjectSize, clientThreads, serverThreads)
    }

    /** Mode, seed nodes and path are the given ones; tunables and current
        node still hold their zero values. */
    predicate Holds(m: string, nodes: seq<Node>, path: string)
      reads this
    {
      mode == m && seedNodes == nodes && configPath == path
      && CurrentTunables() == ZeroTunables && currentNode == ZeroNode
    }

    /** The zero Configuration (`NilConfig`). */
    predicate IsNil()
      reads this
    {
      Holds("", [], "")
    }

    /** `Configuration{}`, returned alongside every error. */
    constructor Nil()
      ensures IsNil()
    {
      mode, seedNodes, configPath := "", [], "";
      iterationIntervalMs, connectionTimeoutMs, readIddleIterationFactor, cyclesForWaitKeepAlive := 0, 0, 0, 0;
      maxRumorLogSize, maxObjectSize, clientThreads, serverThreads := 0, 0, 0, 0;
      currentNode := ZeroNode;
    }

    /** `Configuration{SeedNodes: nodes, Mode: mode, ConfigPath: path}`. */
    constructor Assembled(m: string, nodes: seq<Node>, path: string)
      ensures Holds(m, nodes, path)
    {
      mode, seedNodes, configPath := m, nodes, path;
      iterationIntervalMs, connectionTimeoutMs, readIddleIterationFactor, cyclesForWaitKeepAlive := 0, 0, 0, 0;
      maxRumorLogSize, maxObjectSize, clientThreads, serverThreads := 0, 0, 0, 0;
      currentNode := ZeroNode;
    }
  }

  // ---------------------------------------------------------------------
  // Validate: the checks on the command-line shape
  // ---------------------------------------------------------------------

  /** The mode test as written: the input is compared, without changing
      its case, with the upper-cased constants. */
  predicate ModeAccepted(mode: string)
  {
    mode == ToUpper(RunningMode) || mode == ToUpper(TestMode)
  }

  /** Exactly "RUNNING" and "TEST" are accepted; the comparison is
      case-sensitive, so "running" and "TESTING" are rejected. */
  lemma ModeAcceptedIff(mode: string)
    ensures ModeAccepted(mode) <==> mode == "RUNNING" || mode == "TEST"
    ensures !ModeAccepted("running") && !ModeAccepted("TESTING")
  {
    ToUpperKeepsUpper(RunningMode);
    ToUpperKeepsUpper(TestMode);
    assert "running"[0] != "RUNNING"[0];
    assert "TESTING" != "RUNNING" by { assert "TESTING"[0] != "RUNNING"[0]; }
    assert |"TESTING"| != |"TEST"|;
  }

  const ModeMessage: string := "The 'mode' variable must be either " + RunningMode + " or " + TestMode
  const EmptyPathMessage: string := "Empty configPath"
  const LengthMessage: string :=
    "Arguments " + NodeID + ", " + NodeAddress + ", " + NodeProtocolPort + " and " + NodeServerPort
    + " must contains the same number of element"

  predicate SameLength(ids: seq<string>, addresses: seq<string>, protocolPorts: seq<string>, serverPorts: seq<string>)
  {
    |ids| == |addresses| && |addresses| == |protocolPorts| && |protocolPorts| == |serverPorts|
  }

  /** The error of the first failing shape check of Validate, in its order:
      mode, config path, equal lengths, then no empty element in the id,
      address, protocol.port and server.port lists. */
  function ShapeError(mode: string, configPath: string, ids: seq<string>, addresses: seq<string>,
                      protocolPorts: seq<string>, serverPorts: seq<string>): Option<Error>
  {
    if !ModeAccepted(mode) then Some(ArgumentParsingError(ModeMessage))
    else if Trim(configPath) == [] then Some(ArgumentParsingError(EmptyPathMessage))
    else if !SameLength(ids, addresses, protocolPorts, serverPorts) then Some(ArgumentParsingError(LengthMessage))
    else if !AllNonEmpty(ids) then Some(ArgumentParsingError(EmptyElementMessage(NodeID)))
    else if !AllNonEmpty(addresses) then Some(ArgumentParsingError(EmptyElementMessage(NodeAddress)))
    else if !AllNonEmpty(protocolPorts) then Some(ArgumentParsingError(EmptyElementMessage(NodeProtocolPort)))
    else if !AllNonEmpty(serverPorts) then Some(ArgumentParsingError(EmptyElementMessage(NodeServerPort)))
    else None
  }

  predicate ValidMode(mode: string)
  {
    mode == "RUNNING" || mode == "TEST"
  }

  /** What the shape checks mean: every shape error is an
      ArgumentParsingError; the mode is checked before everything, then the
      path, then the lengths (before any element is looked at), then the
      lists in the order id, address, protocol.port, server.port, and the
      error names the first list holding an empty string; the checks all
      pass exactly when the mode is valid, the path is not all spaces, the
      lengths agree and no element is empty. */
  lemma ShapeErrorSpec(mode: string, configPath: string, ids: seq<string>, addresses: seq<string>,
                       protocolPorts: seq<string>, serverPorts: seq<string>)
    ensures var e := ShapeError(mode, configPath, ids, addresses, protocolPorts, serverPorts);
      && (e.Some? ==> e.value.ArgumentParsingError?)
      && (!ValidMode(mode) ==> e == Some(ArgumentParsingError(ModeMessage)))
      && (ValidMode(mode) && AllSpaces(configPath) ==> e == Some(ArgumentParsingError(EmptyPathMessage)))
      && (ValidMode(mode) && !AllSpaces(configPath) && !SameLength(ids, addresses, protocolPorts, serverPorts)
          ==> e == Some(ArgumentParsingError(LengthMessage)))
      && (ValidMode(mode) && !AllSpaces(configPath) && SameLength(ids, addresses, protocolPorts, serverPorts)
          ==> (!AllNonEmpty(ids) ==> e == Some(ArgumentParsingError(EmptyElementMessage(NodeID))))
              && (AllNonEmpty(ids) && !AllNonEmpty(addresses)
                  ==> e == Some(ArgumentParsingError(EmptyElementMessage(NodeAddress))))
              && (AllNonEmpty(ids) && AllNonEmpty(addresses) && !AllNonEmpty(protocolPorts)
                  ==> e == Some(ArgumentParsingError(EmptyElementMessage(NodeProtocolPort))))
              && (AllNonEmpty(ids) && AllNonEmpty(addresses) && AllNonEmpty(protocolPorts) && !AllNonEmpty(serverPorts)
                  ==> e == Some(ArgumentParsingError(EmptyElementMessage(NodeServerPort)))))
      && (e == None <==> ValidMode(mode) && !AllSpaces(configPath)
                         && SameLength(ids, addresses, protocolPorts, serverPorts)
                         && AllNonEmpty(ids) && AllNonEmpty(addresses)
                         && AllNonEmpty(protocolPorts) && AllNonEmpty(serverPorts))
  {
    ModeAcceptedIff(mode);
    TrimSpec(configPath);
  }

  // ---------------------------------------------------------------------
  // buildConf: zipping the four lists into seed nodes
  // ---------------------------------------------------------------------

  /** buildConf indexes the other three lists at every position of `ids`. */
  predicate Covers(ids: seq<string>, addresses: seq<string>, protocolPorts: seq<string>, serverPorts: seq<string>)
  {
    |ids| <= |addresses| && |ids| <= |protocolPorts| && |ids| <= |serverPorts|
  }

  /** Both ports of a position convert. */
  predicate PortsConvert(protocolPort: string, serverPort: string)
  {
    Atoi(protocolPort).Success? && Atoi(serverPort).Success?
  }

  /** The error of the first conversion that fails at one position: the
      protocol port is converted before the server port. */
  function PortError(protocolPort: string, serverPort: string): Error
    requires !PortsConvert(protocolPort, serverPort)
  {
    if Atoi(protocolPort).Failure? then Atoi(protocolPort).error else Atoi(serverPort).error
  }

  function Prepend(nodes: seq<Node>, r: Result<seq<Node>>): Result<seq<Node>>
  {
    match r
    case Success(rest) => Success(nodes + rest)
    case Failure(e) => Failure(e)
  }

  /** Prepending in two steps is prepending the concatenation. */
  lemma PrependTwice(a: seq<Node>, b: seq<Node>, r: Result<seq<Node>>)
    ensures Prepend(a, Prepend(b, r)) == Prepend(a + b, r)
    ensures Prepend([], r) == r
  {
    if r.Success? {
      assert a + (b + r.value) == (a + b) + r.value;
      assert [] + r.value == r.value;
    }
  }

  /** The nodes built from position `i` on, or the error of the first
      port that does not convert. */
  function SeedNodesFrom(ids: seq<string>, addresses: seq<string>, protocolPorts: seq<string>,
                         serverPorts: seq<string>, i: nat): Result<seq<Node>>
    requires Covers(ids, addresses, protocolPorts, serverPorts) && i <= |ids|
    decreases |ids| - i
  {
    if i == |ids| then Success([])
    else if !PortsConvert(protocolPorts[i], serverPorts[i]) then Failure(PortError(protocolPorts[i], serverPorts[i]))
    else Prepend([NodeAt(ids, addresses, protocolPorts, serverPorts, i)],
                 SeedNodesFrom(ids, addresses, protocolPorts, serverPorts, i + 1))
  }

  /** The node buildConf makes from position `k` of the lists. */
  function NodeAt(ids: seq<string>, addresses: seq<string>, protocolPorts: seq<string>,
                  serverPorts: seq<string>, k: nat): Node
    requires Covers(ids, addresses, protocolPorts, serverPorts) && k < |ids|
    requires PortsConvert(protocolPorts[k], serverPorts[k])
  {
    Node(ids[k], addresses[k], Atoi(protocolPorts[k]).value, Atoi(serverPorts[k]).value)
  }

  /** The seed-node list buildConf builds, or the error it stops with. */
  function SeedNodes(ids: seq<string>, addresses: seq<string>, protocolPorts: seq<string>,
                     serverPorts: seq<string>): Result<seq<Node>>
    requires Covers(ids, addresses, protocolPorts, serverPorts)
  {
    SeedNodesFrom(ids, addresses, protocolPorts, serverPorts, 0)
  }

  lemma {:induction false} SeedNodesFromSuccess(ids: seq<string>, addresses: seq<string>, protocolPorts: seq<string>,
                                                serverPorts: seq<string>, i: nat)
    requires Covers(ids, addresses, protocolPorts, serverPorts) && i <= |ids|
    ensures SeedNodesFrom(ids, addresses, protocolPorts, serverPorts, i).Success?
            <==> forall k :: i <= k < |ids| ==> PortsConvert(protocolPorts[k], serverPorts[k])
    decreases |ids| - i
  {
    if i < |ids| {
      SeedNodesFromSuccess(ids, addresses, protocolPorts, serverPorts, i + 1);
    }
  }

  lemma {:induction false} SeedNodesFromValues(ids: seq<string>, addresses: seq<string>, protocolPorts: seq<string>,
                                               serverPorts: seq<string>, i: nat)
    requires Covers(ids, addresses, protocolPorts, serverPorts) && i <= |ids|
    requires SeedNodesFrom(ids, addresses, protocolPorts, serverPorts, i).Success?
    ensures var ns := SeedNodesFrom(ids, addresses, protocolPorts, serverPorts, i).value;
      && |ns| == |ids| - i
      && forall k :: i <= k < |ids| ==>
           PortsConvert(protocolPorts[k], serverPorts[k])
           && ns[k - i] == NodeAt(ids, addresses, protocolPorts, serverPorts, k)
    decreases |ids| - i
  {
    if i < |ids| {
      var rest := SeedNodesFrom(ids, addresses, protocolPorts, serverPorts, i + 1);
      assert PortsConvert(protocolPorts[i], serverPorts[i]) && rest.Success?;
      SeedNodesFromValues(ids, addresses, protocolPorts, serverPorts, i + 1);
      var ns := SeedNodesFrom(ids, addresses, protocolPorts, serverPorts, i).value;
      assert ns == [NodeAt(ids, addresses, protocolPorts, serverPorts, i)] + rest.value;
      forall k | i < k < |ids|
        ensures PortsConvert(protocolPorts[k], serverPorts[k])
        ensures ns[k - i] == NodeAt(ids, addresses, protocolPorts, serverPorts, k)
      {
        assert ns[k - i] == rest.value[k - (i + 1)];
      }
    }
  }

  lemma {:induction false} SeedNodesFromFailure(ids: seq<string>, addresses: seq<string>, protocolPorts: seq<string>,
                                                serverPorts: seq<string>, i: nat)
    requires Covers(ids, addresses, protocolPorts, serverPorts) && i <= |ids|
    ensures var r := SeedNodesFrom(ids, addresses, protocolPorts, serverPorts, i);
      r.Failure? ==>
        exists k :: FirstBadPosition(protocolPorts, serverPorts, i, k, |ids|) && r.error == PortError(protocolPorts[k], serverPorts[k])
    decreases |ids| - i
  {
    if i < |ids| {
      if !PortsConvert(protocolPorts[i], serverPorts[i]) {
        assert FirstBadPosition(protocolPorts, serverPorts, i, i, |ids|);
      } else {
        SeedNodesFromFailure(ids, addresses, protocolPorts, serverPorts, i + 1);
        var rest := SeedNodesFrom(ids, addresses, protocolPorts, serverPorts, i + 1);
        if rest.Failure? {
          var k :| FirstBadPosition(protocolPorts, serverPorts, i + 1, k, |ids|)
                   && rest.error == PortError(protocolPorts[k], serverPorts[k]);
          assert FirstBadPosition(protocolPorts, serverPorts, i, k, |ids|);
        }
      }
    }
  }

  /** Position `k` (from `i` on, below `n`) is the first whose ports do not
      both convert. */
  predicate FirstBadPosition(protocolPorts: seq<string>, serverPorts: seq<string>, i: nat, k: int, n: int)
    requires n <= |protocolPorts| && n <= |serverPorts|
  {
    && i <= k < n
    && (forall j :: i <= j < k ==> PortsConvert(protocolPorts[j], serverPorts[j]))
    && !PortsConvert(protocolPorts[k], serverPorts[k])
  }

  /** A port string converts exactly when it is a 64-bit decimal integer. */
  predicate IsPort(s: string)
  {
    IsDecimal(s) && InInt64(DecimalValue(s))
  }

  /** Atoi's meaning at one position of the lists. */
  lemma PortsConvertSpec(protocolPort: string, serverPort: string)
    ensures PortsConvert(protocolPort, serverPort) <==> IsPort(protocolPort) && IsPort(serverPort)
    ensures PortsConvert(protocolPort, serverPort)
            ==> Atoi(protocolPort).value == DecimalValue(protocolPort) && Atoi(serverPort).value == DecimalValue(serverPort)
    ensures !PortsConvert(protocolPort, serverPort)
            ==> PortError(protocolPort, serverPort).NumError? && PortError(protocolPort, serverPort).funcName == "Atoi"
  {
    AtoiSpec(protocolPort);
    AtoiSpec(serverPort);
  }

  /** Atoi's meaning for the node built at one position. */
  lemma NodeAtSpec(ids: seq<string>, addresses: seq<string>, protocolPorts: seq<string>,
                   serverPorts: seq<string>, k: nat)
    requires Covers(ids, addresses, protocolPorts, serverPorts) && k < |ids|
    ensures PortsConvert(protocolPorts[k], serverPorts[k]) <==> IsPort(protocolPorts[k]) && IsPort(serverPorts[k])
    ensures PortsConvert(protocolPorts[k], serverPorts[k])
            ==> NodeAt(ids, addresses, protocolPorts, serverPorts, k)
                == Node(ids[k], addresses[k], DecimalValue(protocolPorts[k]), DecimalValue(serverPorts[k]))
  {
    PortsConvertSpec(protocolPorts[k], serverPorts[k]);
  }

  /** buildConf's node list: it succeeds exactly when every port is a
      64-bit decimal integer, and then holds one node per position, in
      input order, node k made of the k-th id, the k-th address and the
      k-th ports read as integers (no node at all for empty lists). */
  lemma SeedNodesSpec(ids: seq<string>, addresses: seq<string>, protocolPorts: seq<string>, serverPorts: seq<string>)
    requires Covers(ids, addresses, protocolPorts, serverPorts)
    ensures var r := SeedNodes(ids, addresses, protocolPorts, serverPorts);
      && (r.Success? <==> forall k :: 0 <= k < |ids| ==> IsPort(protocolPorts[k]) && IsPort(serverPorts[k]))
      && (r.Success? ==>
            (&& |r.value| == |ids|
             && forall k :: 0 <= k < |ids| ==>
                  && IsPort(protocolPorts[k]) && IsPort(serverPorts[k])
                  && r.value[k] == Node(ids[k], addresses[k], DecimalValue(protocolPorts[k]), DecimalValue(serverPorts[k]))))
  {
    SeedNodesFromSuccess(ids, addresses, protocolPorts, serverPorts, 0);
    forall k | 0 <= k < |ids|
      ensures PortsConvert(protocolPorts[k], serverPorts[k]) <==> IsPort(protocolPorts[k]) && IsPort(serverPorts[k])
    {
      PortsConvertSpec(protocolPorts[k], serverPorts[k]);
    }
    var r := SeedNodes(ids, addresses, protocolPorts, serverPorts);
    if r.Success? {
      SeedNodesFromValues(ids, addresses, protocolPorts, serverPorts, 0);
      forall k | 0 <= k < |ids|
        ensures IsPort(protocolPorts[k]) && IsPort(serverPorts[k])
        ensures r.value[k] == Node(ids[k], addresses[k], DecimalValue(protocolPorts[k]), DecimalValue(serverPorts[k]))
      {
        NodeAtSpec(ids, addresses, protocolPorts, serverPorts, k);
      }
    }
  }

  /** When buildConf's node list fails, the error is the unwrapped
      *NumError of the first port that does not convert, scanning positions
      upward and the protocol port before the server port at each
      position. */
  lemma SeedNodesFirstError(ids: seq<string>, addresses: seq<string>, protocolPorts: seq<string>, serverPorts: seq<string>)
    requires Covers(ids, addresses, protocolPorts, serverPorts)
    ensures var r := SeedNodes(ids, addresses, protocolPorts, serverPorts);
      r.Failure? ==>
        (&& r.error.NumError? && r.error.funcName == "Atoi"
         && exists k :: FirstBadPosition(protocolPorts, serverPorts, 0, k, |ids|)
                        && r.error == PortError(protocolPorts[k], serverPorts[k]))
  {
    SeedNodesFromFailure(ids, addresses, protocolPorts, serverPorts, 0);
    var r := SeedNodes(ids, addresses, protocolPorts, serverPorts);
    if r.Failure? {
      var k :| FirstBadPosition(protocolPorts, serverPorts, 0, k, |ids|) && r.error == PortError(protocolPorts[k], serverPorts[k]);
      PortsConvertSpec(protocolPorts[k], serverPorts[k]);
    }
  }

  /** What buildConf leaves behind, given the node list it builds and what
      filepath.Abs does with the path: the node error, else the path error,
      each with the zero Configuration; else no error and a Configuration
      holding the mode, the nodes and the absolute path. */
  predicate Built(config: Configuration, err: Option<Error>, mode: string,
                  nodes: Result<seq<Node>>, absPath: Result<string>)
    reads config
  {
    match nodes
    case Failure(e) => err == Some(e) && config.IsNil()
    case Success(ns) =>
      match absPath
      case Failure(e) => err == Some(e) && config.IsNil()
      case Success(p) => err == None && config.Holds(mode, ns, p)
  }

  /** buildConf: fills a node array position by position, converting both
      ports, and returns at the first conversion error; then resolves the
      path with `abs` (filepath.Abs). */
  method BuildConf(mode: string, configPath: string, ids: seq<string>, addresses: seq<string>,
                   protocolPorts: seq<string>, serverPorts: seq<string>, abs: string -> Result<string>)
    returns (config: Configuration, err: Option<Error>)
    requires Covers(ids, addresses, protocolPorts, serverPorts)
    ensures Built(config, err, mode, SeedNodes(ids, addresses, protocolPorts, serverPorts), abs(configPath))
  {
    var nodes := new Node[|ids|];
    var i := 0;
    assert nodes[..0] == [];
    PrependTwice([], [], SeedNodes(ids, addresses, protocolPorts, serverPorts));
    while i < |ids|
      invariant 0 <= i <= |ids|
      invariant SeedNodes(ids, addresses, protocolPorts, serverPorts)
                == Prepend(nodes[..i], SeedNodesFrom(ids, addresses, protocolPorts, serverPorts, i))
    {
      var pPort := Atoi(protocolPorts[i]);
      if pPort.Failure? {
        config := new Configuration.Nil();
        err := Some(pPort.error);
        return;
      }
      var sPort := Atoi(serverPorts[i]);
      if sPort.Failure? {
        config := new Configuration.Nil();
        err := Some(sPort.error);
        return;
      }
      var node := Node(ids[i], addresses[i], pPort.value, sPort.value);
      ghost var before := nodes[..i];
      nodes[i] := node;
      assert nodes[..i + 1] == before + [node];
      PrependTwice(before, [node], SeedNodesFrom(ids, addresses, protocolPorts, serverPorts, i + 1));
      i := i + 1;
    }
    assert nodes[..] == nodes[..i];
    PrependTwice(nodes[..], [], Success([]));
    var absConfigPath := abs(configPath);
    if absConfigPath.Failure? {
      config := new Configuration.Nil();
      err := Some(absConfigPath.error);
      return;
    }
    config := new Configuration.Assembled(mode, nodes[..], absConfigPath.value);
    err := None;
  }

  /** Validate: the shape checks in order, stopping at the first failure,
      then buildConf. On success the Configuration holds the input mode,
      which is "RUNNING" or "TEST", and one seed node per position of the
      four lists, in order; on any error it is the zero Configuration. */
  method Validate(mode: string, configPath: string, ids: seq<string>, addresses: seq<string>,
                  protocolPorts: seq<string>, serverPorts: seq<string>, abs: string -> Result<string>)
    returns (config: Configuration, err: Option<Error>)
    ensures var e := ShapeError(mode, configPath, ids, addresses, protocolPorts, serverPorts);
      e.Some? ==> err == e && config.IsNil()
    ensures var e := ShapeError(mode, configPath, ids, addresses, protocolPorts, serverPorts);
      e.None? ==> Built(config, err, mode, SeedNodes(ids, addresses, protocolPorts, serverPorts), abs(configPath))
    ensures err.Some? ==> config.IsNil()
    ensures err.None? ==> ValidMode(mode) && config.mode == mode
                          && SameLength(ids, addresses, protocolPorts, serverPorts)
                          && |config.seedNodes| == |ids|
                          && forall k :: 0 <= k < |ids| ==>
                               IsPort(protocolPorts[k]) && IsPort(serverPorts[k])
                               && config.seedNodes[k] == Node(ids[k], addresses[k], DecimalValue(protocolPorts[k]),
                                                              DecimalValue(serverPorts[k]))
  {
    if mode != ToUpper(RunningMode) && mode != ToUpper(TestMode) {
      config := new Configuration.Nil();
      err := Some(ArgumentParsingError(ModeMessage));
      return;
    }
    if Trim(configPath) == "" {
      config := new Configuration.Nil();
      err := Some(ArgumentParsingError(EmptyPathMessage));
      return;
    }
    if |ids| != |addresses| || |addresses| != |protocolPorts| || |protocolPorts| != |serverPorts| {
      config := new Configuration.Nil();
      err := Some(ArgumentParsingError(LengthMessage));
      return;
    }
    var chk := CheckNonEmpty(ids, NodeID);
    if chk.None? {
      chk := CheckNonEmpty(addresses, NodeAddress);
    }
    if chk.None? {
      chk := CheckNonEmpty(protocolPorts, NodeProtocolPort);
    }
    if chk.None? {
      chk := CheckNonEmpty(serverPorts, NodeServerPort);
    }
    if chk.Some? {
      config := new Configuration.Nil();
      err := chk;
      return;
    }
    config, err := BuildConf(mode, configPath, ids, addresses, protocolPorts, serverPorts, abs);
    ModeAcceptedIff(mode);
    SeedNodesSpec(ids, addresses, protocolPorts, serverPorts);
  }

  // ---------------------------------------------------------------------
  // AddProgramConfig: tunables and current node from the properties file
  // ---------------------------------------------------------------------

  const IterationIntervalKey: string := "iteration.interval.ms"
  const ConnectionTimeoutKey: string := "connection.timeout.ms"
  const ReadIddleFactorKey: string := "read.iddle.iteration.factor"
  const CyclesKeepAliveKey: string := "cycles.for.wait.keep.alive"
  const MaxRumorLogSizeKey: string := "max.rumor.log.size"
  const MaxObjectSizeKey: string := "max.object.size"
  const ClientThreadsKey: string := "client.threads"
  const ServerThreadsKey: string := "server.threads"

  /** The value each tunable takes when its key is absent. */
  const DefaultTunables: Tunables := Tunables(3000, 1000, 3, 3, 1000000, 2147483647, 3, 3)

  /** The tunables as AddProgramConfig reads them. */
  function LoadTunables(p: Properties): Tunables
  {
    Tunables(
      GetInt(p, IterationIntervalKey, 3000),
      GetInt(p, ConnectionTimeoutKey, 1000),
      GetInt(p, ReadIddleFactorKey, 3),
      GetInt(p, CyclesKeepAliveKey, 3),
      GetInt(p, MaxRumorLogSizeKey, 1000000),
      GetInt(p, MaxObjectSizeKey, 2147483647),
      GetInt(p, ClientThreadsKey, 3),
      GetInt(p, ServerThreadsKey, 3))
  }

  /** The file's value when it holds an integer, the table's default
      otherwise: the value from the file, or the default. */
  function FileOr(p: Properties, key: string, def: int): int
  {
    if HoldsInt(p, key) then DecimalValue(p[key]) else def
  }

  /** Each tunable is the file's value when its key holds a 64-bit decimal
      integer, and otherwise the default of the table (3000, 1000, 3, 3,
      1000000, 2147483647, 3, 3). */
  lemma LoadTunablesSpec(p: Properties)
    ensures LoadTunables(p) == Tunables(
      FileOr(p, IterationIntervalKey, DefaultTunables.iterationIntervalMs),
      FileOr(p, ConnectionTimeoutKey, DefaultTunables.connectionTimeoutMs),
      FileOr(p, ReadIddleFactorKey, DefaultTunables.readIddleIterationFactor),
      FileOr(p, CyclesKeepAliveKey, DefaultTunables.cyclesForWaitKeepAlive),
      FileOr(p, MaxRumorLogSizeKey, DefaultTunables.maxRumorLogSize),
      FileOr(p, MaxObjectSizeKey, DefaultTunables.maxObjectSize),
      FileOr(p, ClientThreadsKey, DefaultTunables.clientThreads),
      FileOr(p, ServerThreadsKey, DefaultTunables.serverThreads))
  {
    GetIntSpec(p, IterationIntervalKey, 3000);
    GetIntSpec(p, ConnectionTimeoutKey, 1000);
    GetIntSpec(p, ReadIddleFactorKey, 3);
    GetIntSpec(p, CyclesKeepAliveKey, 3);
    GetIntSpec(p, MaxRumorLogSizeKey, 1000000);
    GetIntSpec(p, MaxObjectSizeKey, 2147483647);
    GetIntSpec(p, ClientThreadsKey, 3);
    GetIntSpec(p, ServerThreadsKey, 3);
  }

  /** A properties file that writes every tunable of `t` in decimal. */
  function TunablesFile(t: Tunables): Properties
  {
    map[IterationIntervalKey := FormatInt(t.iterationIntervalMs),
        ConnectionTimeoutKey := FormatInt(t.connectionTimeoutMs),
        ReadIddleFactorKey := FormatInt(t.readIddleIterationFactor),
        CyclesKeepAliveKey := FormatInt(t.cyclesForWaitKeepAlive),
        MaxRumorLogSizeKey := FormatInt(t.maxRumorLogSize),
        MaxObjectSizeKey := FormatInt(t.maxObjectSize),
        ClientThreadsKey := FormatInt(t.clientThreads),
        ServerThreadsKey := FormatInt(t.serverThreads)]
  }

  predicate TunablesInInt64(t: Tunables)
  {
    InInt64(t.iterationIntervalMs) && InInt64(t.connectionTimeoutMs) && InInt64(t.readIddleIterationFactor)
    && InInt64(t.cyclesForWaitKeepAlive) && InInt64(t.maxRumorLogSize) && InInt64(t.maxObjectSize)
    && InInt64(t.clientThreads) && InInt64(t.serverThreads)
  }

  /** With every tunable key present, no default is substituted: a file
      holding the values of `t` (and possibly other keys) loads as `t`. */
  lemma LoadTunablesRoundTrip(t: Tunables, p: Properties)
    requires TunablesInInt64(t)
    requires forall k :: k in TunablesFile(t) ==> k in p && p[k] == TunablesFile(t)[k]
    ensures LoadTunables(p) == t
  {
    var f := TunablesFile(t);
    assert IterationIntervalKey in f && ConnectionTimeoutKey in f && ReadIddleFactorKey in f
      && CyclesKeepAliveKey in f && MaxRumorLogSizeKey in f && MaxObjectSizeKey in f
      && ClientThreadsKey in f && ServerThreadsKey in f;
    GetIntFormatted(p, IterationIntervalKey, t.iterationIntervalMs, 3000);
    GetIntFormatted(p, ConnectionTimeoutKey, t.connectionTimeoutMs, 1000);
    GetIntFormatted(p, ReadIddleFactorKey, t.readIddleIterationFactor, 3);
    GetIntFormatted(p, CyclesKeepAliveKey, t.cyclesForWaitKeepAlive, 3);
    GetIntFormatted(p, MaxRumorLogSizeKey, t.maxRumorLogSize, 1000000);
    GetIntFormatted(p, MaxObjectSizeKey, t.maxObjectSize, 2147483647);
    GetIntFormatted(p, ClientThreadsKey, t.clientThreads, 3);
    GetIntFormatted(p, ServerThreadsKey, t.serverThreads, 3);
  }

  /** The current node as AddProgramConfig reads it: id and address
      trimmed of spaces (empty when absent), ports -1 when absent. */
  function LoadCurrentNode(p: Properties): Node
  {
    Node(Trim(GetString(p, NodeID, "")), Trim(GetString(p, NodeAddress, "")),
         GetInt(p, NodeProtocolPort, -1), GetInt(p, NodeServerPort, -1))
  }

  function EmptyFieldMessage(key: string): string
  {
    key + " can't have empty values"
  }

  function UnsetPortMessage(key: string): string
  {
    key + " should be setted"
  }

  /** The first of the current-node checks that fails, in the order id,
      address, protocol port, server port. */
  function CurrentNodeError(n: Node): Option<Error>
  {
    if n.id == "" then Some(BaseError(EmptyFieldMessage(NodeID)))
    else if n.address == "" then Some(BaseError(EmptyFieldMessage(NodeAddress)))
    else if n.protocolPort < 0 then Some(BaseError(UnsetPortMessage(NodeProtocolPort)))
    else if n.serverPort < 0 then Some(BaseError(UnsetPortMessage(NodeServerPort)))
    else None
  }

  /** The key is present with a value that is not all spaces. */
  predicate HasText(p: Properties, key: string)
  {
    key in p && !AllSpaces(p[key])
  }

  /** The key holds a non-negative 64-bit decimal integer. */
  predicate HoldsPort(p: Properties, key: string)
  {
    HoldsInt(p, key) && DecimalValue(p[key]) >= 0
  }

  /** In terms of the file: the current node is accepted exactly when id
      and address are present and not all spaces and both ports hold
      non-negative integers; otherwise the error is that of the first
      missing field in the order id, address, protocol.port, server.port. */
  lemma CurrentNodeSpec(p: Properties)
    ensures var e := CurrentNodeError(LoadCurrentNode(p));
      && (e == None <==> HasText(p, NodeID) && HasText(p, NodeAddress)
                         && HoldsPort(p, NodeProtocolPort) && HoldsPort(p, NodeServerPort))
      && (!HasText(p, NodeID) ==> e == Some(BaseError(EmptyFieldMessage(NodeID))))
      && (HasText(p, NodeID) && !HasText(p, NodeAddress)
          ==> e == Some(BaseError(EmptyFieldMessage(NodeAddress))))
      && (HasText(p, NodeID) && HasText(p, NodeAddress) && !HoldsPort(p, NodeProtocolPort)
          ==> e == Some(BaseError(UnsetPortMessage(NodeProtocolPort))))
      && (HasText(p, NodeID) && HasText(p, NodeAddress) && HoldsPort(p, NodeProtocolPort)
          && !HoldsPort(p, NodeServerPort)
          ==> e == Some(BaseError(UnsetPortMessage(NodeServerPort))))
  {
    TrimSpec(GetString(p, NodeID, ""));
    TrimSpec(GetString(p, NodeAddress, ""));
    GetIntSpec(p, NodeProtocolPort, -1);
    GetIntSpec(p, NodeServerPort, -1);
  }

  /** AddProgramConfig: writes the eight tunables and the current node into
      `config` and only then checks the current node, so the fields are
      overwritten even when an error is returned; mode, seed nodes and path
      are left alone. Loading the file is done by the caller (`props`). */
  method AddProgramConfig(config: Configuration, props: Properties) returns (err: Option<Error>)
    modifies config
    ensures config.mode == old(config.mode) && config.seedNodes == old(config.seedNodes)
            && config.configPath == old(config.configPath)
    ensures config.CurrentTunables() == LoadTunables(props)
    ensures config.currentNode == LoadCurrentNode(props)
    ensures err == CurrentNodeError(config.currentNode)
  {
    config.iterationIntervalMs := GetInt(props, IterationIntervalKey, 3000);
    config.connectionTimeoutMs := GetInt(props, ConnectionTimeoutKey, 1000);
    config.readIddleIterationFactor := GetInt(props, ReadIddleFactorKey, 3);
    config.cyclesForWaitKeepAlive := GetInt(props, CyclesKeepAliveKey, 3);
    config.maxRumorLogSize := GetInt(props, MaxRumorLogSizeKey, 1000000);
    config.maxObjectSize := GetInt(props, MaxObjectSizeKey, 2147483647);
    config.clientThreads := GetInt(props, ClientThreadsKey, 3);
    config.serverThreads := GetInt(props, ServerThreadsKey, 3);
    config.currentNode := Node(
      Trim(GetString(props, NodeID, "")),
      Trim(GetString(props, NodeAddress, "")),
      GetInt(props, NodeProtocolPort, -1),
      GetInt(props, NodeServerPort, -1));

    if config.currentNode.id == "" {
      return Some(BaseError(EmptyFieldMessage(NodeID)));
    }
    if config.currentNode.address == "" {
      return Some(BaseError(EmptyFieldMessage(NodeAddress)));
    }
    if config.currentNode.protocolPort < 0 {
      return Some(BaseError(UnsetPortMessage(NodeProtocolPort)));
    }
    if config.currentNode.serverPort < 0 {
      return Some(BaseError(UnsetPortMessage(NodeServerPort)));
    }
    return None;
  }
}
