/**
  Concrete runs of the bootstrap on the command lines and the properties
  file used by the repository's own test suite: each list argument is the
  raw value split by ArgStringList.Set.
 */
module Scenarios {
  import opened Common
  import opened Strings
  import opened Strconv
  import opened Properties
  import opened Config

  /** The four list arguments of a two-node command line, as Set leaves
      them. */
  lemma TwoNodeArguments()
    ensures Split("id1,id2") == ["id1", "id2"] && Split("ad1,ad2") == ["ad1", "ad2"]
    ensures Split("20,21") == ["20", "21"] && Split("22,23") == ["22", "23"]
  {
    assert "id1,id2" == "id1" + "," + "id2";
    SplitPair("id1", "id2");
    assert "ad1,ad2" == "ad1" + "," + "ad2";
    SplitPair("ad1", "ad2");
    assert "20,21" == "20" + "," + "21";
    SplitPair("20", "21");
    assert "22,23" == "22" + "," + "23";
    SplitPair("22", "23");
  }

  /** The list arguments of the failing command lines, as Set leaves
      them. */
  lemma BadArguments()
    ensures Split("22,ii23d") == ["22", "ii23d"] && Split("id1") == ["id1"] && Split("2456") == ["2456"]
  {
    assert "22,ii23d" == "22" + "," + "ii23d";
    SplitPair("22", "ii23d");
    SplitAfterPiece("id1", []);
    SplitAfterPiece("2456", []);
  }

  /** The shape checks pass on the two-node command line. */
  lemma TwoNodeShape()
    ensures ShapeError("RUNNING", "path/to/file", ["id1", "id2"], ["ad1", "ad2"], ["20", "21"], ["22", "23"]) == None
  {
    TrimSpec("path/to/file");
    ModeAcceptedIff("RUNNING");
  }

  /** Two seed nodes: the k-th id, address and ports form node k. */
  lemma TwoSeedNodes()
    ensures SeedNodes(["id1", "id2"], ["ad1", "ad2"], ["20", "21"], ["22", "23"])
            == Success([Node("id1", "ad1", 20, 22), Node("id2", "ad2", 21, 23)])
  {
    var ids, addresses, protocolPorts, serverPorts := ["id1", "id2"], ["ad1", "ad2"], ["20", "21"], ["22", "23"];
    SmallPort("20", 20);
    SmallPort("21", 21);
    SmallPort("22", 22);
    SmallPort("23", 23);
    var n0, n1 := Node("id1", "ad1", 20, 22), Node("id2", "ad2", 21, 23);
    assert SeedNodesFrom(ids, addresses, protocolPorts, serverPorts, 2) == Success([]);
    assert NodeAt(ids, addresses, protocolPorts, serverPorts, 1) == n1;
    assert NodeAt(ids, addresses, protocolPorts, serverPorts, 0) == n0;
    var last := SeedNodesFrom(ids, addresses, protocolPorts, serverPorts, 1);
    assert last == Prepend([n1], Success([]));
    assert [n1] + [] == [n1];
    assert SeedNodesFrom(ids, addresses, protocolPorts, serverPorts, 0) == Prepend([n0], last);
    assert [n0] + [n1] == [n0, n1];
  }

  /** A server port that is not a number stops buildConf with the *NumError
      of Atoi on that very string. */
  lemma NonNumericPort()
    ensures SeedNodes(["id1", "id2"], ["ad1", "ad2"], ["20", "21"], ["22", "ii23d"])
            == Failure(NumError("Atoi", "ii23d", ErrSyntax))
  {
  }

  /** Lists of different lengths are rejected by the length check, before
      any element is converted. */
  lemma DifferentListSizes()
    ensures ShapeError("RUNNING", "path/to/some", ["id1"], ["ad1", "ad2"], ["20", "21"], ["22", "23"])
            == Some(ArgumentParsingError(LengthMessage))
    ensures ShapeError("RUNNING", "path/to/file", ["id1", "id2"], ["ad1", "ad2"], ["20", "21"], ["2456"])
            == Some(ArgumentParsingError(LengthMessage))
  {
  }

  /** A properties file that sets only the current node. */
  const NodeOnlyFile: Properties :=
    map[NodeID := "A", NodeAddress := "localhost", NodeProtocolPort := "7001", NodeServerPort := "6001"]

  /** Without any tunable key, all eight tunables take their defaults. */
  lemma NodeOnlyFileTunables()
    ensures LoadTunables(NodeOnlyFile) == DefaultTunables
  {
    LoadTunablesSpec(NodeOnlyFile);
  }

  /** The current node is read from its four keys and accepted. */
  lemma NodeOnlyFileCurrentNode()
    ensures LoadCurrentNode(NodeOnlyFile) == Node("A", "localhost", 7001, 6001)
    ensures CurrentNodeError(LoadCurrentNode(NodeOnlyFile)) == None
  {
    SmallPort("7001", 7001);
    SmallPort("6001", 6001);
    assert Trim("A") == "A";
    assert Trim("localhost") == "localhost";
  }

  /** `a,b` splits into `a` and `b` when neither holds a comma. */
  lemma SplitPair(a: string, b: string)
    requires Comma !in a && Comma !in b
    ensures Split(a + "," + b) == [a, b]
  {
    SplitAfterPiece(a, b);
    SplitAfterPiece(b, []);
  }

  /** A rendered integer converts to the number it spells. */
  lemma SmallPort(s: string, n: int)
    requires InInt64(n) && s == FormatInt(n)
    ensures Atoi(s) == Success(n) && ParseInt(s) == Parsed(n)
  {
    AtoiFormatInt(n);
  }
}
