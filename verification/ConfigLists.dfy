/** Comma-separated lists: the command line tool prints them and the orchestrator splits them again. */
module ConfigLists {
  import opened Types

  // ---------- splitting and printing ----------

  function Split(s: string): (r: seq<string>)
    ensures |r| >= 1
  {
    if s == "" then [""]
    else
      var rest := Split(s[1..]);
      if s[0] == ',' then [""] + rest else [[s[0]] + rest[0]] + rest[1..]
  }

  predicate CommaFree(s: string) {
    ',' !in s
  }

  /** The elements with a comma between any two. */
  function Join(xs: seq<string>): string {
    if |xs| == 0 then ""
    else if |xs| == 1 then xs[0]
    else xs[0] + "," + Join(xs[1..])
  }

  /** The elements with a comma after each. */
  function Terminated(xs: seq<string>): string {
    if xs == [] then "" else Terminated(xs[..|xs| - 1]) + (xs[|xs| - 1] + ",")
  }

  /** All but the last character, if there is one. */
  function DropLast(s: string): string {
    if s == "" then "" else s[..|s| - 1]
  }

  lemma {:induction false} SplitElement(x: string, rest: string)
    requires CommaFree(x)
    ensures Split(x) == [x]
    ensures Split(x + "," + rest) == [x] + Split(rest)
  {
    if x == "" {
      assert x + "," + rest == "," + rest;
      assert ("," + rest)[1..] == rest;
    } else {
      SplitElement(x[1..], rest);
      assert (x + "," + rest)[1..] == x[1..] + "," + rest;
      assert [x[0]] + x[1..] == x;
    }
  }

  /** Splitting a joined list of comma-free elements gives the elements back. */
  lemma {:induction false} SplitJoin(xs: seq<string>)
    requires xs != [] && forall i :: 0 <= i < |xs| ==> CommaFree(xs[i])
    ensures Split(Join(xs)) == xs
  {
    if |xs| == 1 {
      SplitElement(xs[0], "");
    } else {
      SplitJoin(xs[1..]);
      SplitElement(xs[0], Join(xs[1..]));
    }
  }

  lemma {:induction false} JoinSnoc(xs: seq<string>, x: string)
    requires xs != []
    ensures Join(xs + [x]) == Join(xs) + "," + x
  {
    if |xs| > 1 {
      JoinSnoc(xs[1..], x);
      assert (xs + [x])[1..] == xs[1..] + [x];
    } else {
      assert (xs + [x])[1..] == [x];
    }
  }

  /** Printing a comma after each element and cutting the last one off joins the list. */
  lemma {:induction false} DropLastJoins(xs: seq<string>)
    ensures xs != [] ==> Terminated(xs) == Join(xs) + ","
    ensures DropLast(Terminated(xs)) == Join(xs)
  {
    if |xs| > 1 {
      var init := xs[..|xs| - 1];
      DropLastJoins(init);
      JoinSnoc(init, xs[|xs| - 1]);
      assert xs == init + [xs[|xs| - 1]];
    } else if |xs| == 1 {
      assert xs[..0] == [];
    }
  }

  // ---------- numbers ----------

  const DIGITS := "0123456789"

  function Decimal(n: nat): (r: string)
    ensures r != ""
  {
    if n < 10 then [DIGITS[n]] else Decimal(n / 10) + [DIGITS[n % 10]]
  }

  predicate IsDigit(c: char) {
    '0' <= c <= '9'
  }

  function ParseDecimal(s: string): nat {
    if s == "" then 0
    else ParseDecimal(s[..|s| - 1]) * 10 + if IsDigit(s[|s| - 1]) then s[|s| - 1] as int - '0' as int else 0
  }

  lemma DigitRoundTrip(d: nat)
    requires d < 10
    ensures IsDigit(DIGITS[d]) && DIGITS[d] as int - '0' as int == d
  {
  }

  /** Printed numbers read back as themselves and hold digits only. */
  lemma {:induction false} DecimalRoundTrip(n: nat)
    ensures ParseDecimal(Decimal(n)) == n
    ensures forall i :: 0 <= i < |Decimal(n)| ==> IsDigit(Decimal(n)[i])
  {
    DigitRoundTrip(n % 10);
    if n < 10 {
      assert Decimal(n)[..0] == "";
    } else {
      var init, last := Decimal(n / 10), DIGITS[n % 10];
      DecimalRoundTrip(n / 10);
      assert (init + [last])[..|init|] == init;
      assert ParseDecimal(init + [last]) == n / 10 * 10 + n % 10;
    }
  }

  // ---------- reserved peers ----------

  /** Where the nodes of the chain listen. */
  const CHAIN_PORT := 30334

  /** The address of the node at position `i` of a federation. */
  function Peer(port: nat, i: nat, peerId: string): string {
    "/ip4/10.0.1." + Decimal(i + 1) + "/tcp/" + Decimal(port) + "/p2p/" + peerId
  }

  function Peers(port: nat, peerIds: seq<string>): seq<string> {
    seq(|peerIds|, i requires 0 <= i < |peerIds| => Peer(port, i, peerIds[i]))
  }

  function ReservedPeersList(port: nat, peerIds: seq<string>): string {
    DropLast(Terminated(Peers(port, peerIds)))
  }

  function Alternate(option: string, items: seq<string>): seq<string> {
    if items == [] then [] else Alternate(option, items[..|items| - 1]) + [option, items[|items| - 1]]
  }

  function FormatOptionList(option: string, input: string): seq<string> {
    if option == "" || input == "" then [] else Alternate(option, Split(input))
  }

  lemma {:induction false} AlternateAt(option: string, items: seq<string>)
    ensures var r := Alternate(option, items);
            |r| == 2 * |items| && forall i :: 0 <= i < |items| ==> r[2 * i] == option && r[2 * i + 1] == items[i]
  {
    if items != [] {
      AlternateAt(option, items[..|items| - 1]);
    }
  }

  lemma PeerIsCommaFree(port: nat, i: nat, peerId: string)
    requires CommaFree(peerId)
    ensures CommaFree(Peer(port, i, peerId)) && Peer(port, i, peerId) != ""
  {
    DecimalRoundTrip(i + 1);
    DecimalRoundTrip(port);
    var digits, portDigits := Decimal(i + 1), Decimal(port);
    assert forall k :: 0 <= k < |digits| ==> IsDigit(digits[k]);
    assert forall k :: 0 <= k < |portDigits| ==> IsDigit(portDigits[k]);
  }

  /** There are options if and only if there is an option and a list to give them for. */
  lemma OptionsExactly(option: string, input: string)
    ensures FormatOptionList(option, input) != [] <==> option != "" && input != ""
  {
    AlternateAt(option, Split(input));
  }

  /** The address of a peer shows the number of its node, counted from 1, and the port. */
  lemma PeerShowsNode(port: nat, i: nat, peerId: string) returns (host: string, tcp: string)
    ensures Peer(port, i, peerId) == "/ip4/10.0.1." + host + "/tcp/" + tcp + "/p2p/" + peerId
    ensures ParseDecimal(host) == i + 1 && ParseDecimal(tcp) == port
  {
    DecimalRoundTrip(i + 1);
    DecimalRoundTrip(port);
    host, tcp := Decimal(i + 1), Decimal(port);
  }

  /** The peers list printed for any federation becomes, at the node, one option for each peer in order: 2n
      arguments, and none at all for an empty federation. */
  lemma PeersRoundTrip(option: string, port: nat, peerIds: seq<string>)
    requires option != "" && forall i :: 0 <= i < |peerIds| ==> CommaFree(peerIds[i])
    ensures var r := FormatOptionList(option, ReservedPeersList(port, peerIds));
            |r| == 2 * |peerIds| &&
            forall i :: 0 <= i < |peerIds| ==> r[2 * i] == option && r[2 * i + 1] == Peer(port, i, peerIds[i])
  {
    var peers := Peers(port, peerIds);
    DropLastJoins(peers);
    AlternateAt(option, peers);
    if peers != [] {
      forall i | 0 <= i < |peers|
        ensures CommaFree(peers[i]) && peers[i] != ""
      {
        PeerIsCommaFree(port, i, peerIds[i]);
      }
      SplitJoin(peers);
      assert Split("") == [""];
    }
  }

  // ---------- wallets and seeds ----------

  /** A seed and its address for each of the two signature schemes. */
  datatype KeyPair = KeyPair(seed: string, sr25519Address: string, ed25519Address: string)

  datatype NodeId = NodeId(peerId: string, idFile: string)

  datatype ArchipelNode = ArchipelNode(seed: string, nodeId: NodeId)

  datatype ArchipelConfig = ArchipelConfig(
    sr25519List: string,
    ed25519List: string,
    reservedPeersList: string,
    nodes: seq<ArchipelNode>)

  function Map<T, U>(f: T -> U, xs: seq<T>): (r: seq<U>)
    ensures |r| == |xs| && forall i :: 0 <= i < |xs| ==> r[i] == f(xs[i])
  {
    seq(|xs|, i requires 0 <= i < |xs| => f(xs[i]))
  }

  function SrAddresses(keys: seq<KeyPair>): seq<string> {
    Map((key: KeyPair) => key.sr25519Address, keys)
  }

  function EdAddresses(keys: seq<KeyPair>): seq<string> {
    Map((key: KeyPair) => key.ed25519Address, keys)
  }

  function PeerIds(nodeIds: seq<NodeId>): seq<string> {
    Map((nodeId: NodeId) => nodeId.peerId, nodeIds)
  }

  /** The configuration holds these keys and node ids. */
  ghost predicate GeneratedFrom(config: ArchipelConfig, keys: seq<KeyPair>, nodeIds: seq<NodeId>) {
    && config.sr25519List == Join(SrAddresses(keys))
    && config.ed25519List == Join(EdAddresses(keys))
    && config.reservedPeersList == Join(Peers(CHAIN_PORT, PeerIds(nodeIds)))
    && |config.nodes| == |keys| == |nodeIds|
    && forall i :: 0 <= i < |keys| ==> config.nodes[i] == ArchipelNode(keys[i].seed, nodeIds[i])
  }

  lemma TerminatedNext(xs: seq<string>, i: nat)
    requires i < |xs|
    ensures Terminated(xs[..i + 1]) == Terminated(xs[..i]) + (xs[i] + ",")
  {
    assert xs[..i + 1][..i] == xs[..i];
  }

  /** The reduce over the node ids that prints the list of reserved peers. */
  method PrintPeers(port: nat, nodeIds: seq<NodeId>) returns (list: string)
    ensures list == Join(Peers(port, PeerIds(nodeIds)))
  {
    var terminated := "";
    ghost var peers := Peers(port, PeerIds(nodeIds));
    for i := 0 to |nodeIds|
      invariant terminated == Terminated(peers[..i])
    {
      var peer := Peer(port, i, nodeIds[i].peerId);
      TerminatedNext(peers, i);
      terminated := terminated + (peer + ",");
    }
    assert peers[..|nodeIds|] == peers;
    DropLastJoins(peers);
    return DropLast(terminated);
  }

  /** The lists are joined, and each node gets the seed and the node id of its position. */
  method GenerateArchipelConfig(keys: seq<KeyPair>, nodeIds: seq<NodeId>) returns (config: ArchipelConfig)
    requires |keys| == |nodeIds|
    ensures GeneratedFrom(config, keys, nodeIds)
  {
    var reservedPeersList := PrintPeers(CHAIN_PORT, nodeIds);
    var nodes := [];
    for i := 0 to |keys|
      invariant |nodes| == i
      invariant forall k :: 0 <= k < i ==> nodes[k] == ArchipelNode(keys[k].seed, nodeIds[k])
    {
      nodes := nodes + [ArchipelNode(keys[i].seed, nodeIds[i])];
    }
    config := ArchipelConfig(Join(SrAddresses(keys)), Join(EdAddresses(keys)), reservedPeersList, nodes);
  }

  /** The seed of the node with the given number, counted from 1. */
  function LoadSeed(nodesNumber: int, config: ArchipelConfig, nodeId: int): Option<string> {
    if nodesNumber < nodeId || nodeId <= 0 || nodeId > |config.nodes| then None
    else Some(config.nodes[nodeId - 1].seed)
  }

  datatype NamedWallet = NamedWallet(wallet: string, name: string)

  function NodeName(archipelName: string, nodeId: nat): string {
    archipelName + "-NODE-" + Decimal(nodeId)
  }

  function ConstructNodesList(nodesWallets: string, archipelName: string): seq<NamedWallet> {
    if nodesWallets == "" || archipelName == "" then []
    else
      var wallets := Split(nodesWallets);
      seq(|wallets|, i requires 0 <= i < |wallets| => NamedWallet(wallets[i], NodeName(archipelName, i + 1)))
  }

  /** Wallets are named if and only if there are wallets and there is a name. */
  lemma WalletsNamedExactly(nodesWallets: string, archipelName: string)
    ensures ConstructNodesList(nodesWallets, archipelName) != [] <==> nodesWallets != "" && archipelName != ""
  {
  }

  /** A seed is found for exactly the numbers from 1 up to the number of nodes for which there is an entry. */
  lemma SeedLoadedExactly(nodesNumber: int, config: ArchipelConfig, nodeId: int)
    ensures LoadSeed(nodesNumber, config, nodeId).Some? <==> 1 <= nodeId <= nodesNumber && nodeId <= |config.nodes|
    ensures forall i :: 0 <= i < |config.nodes| && nodeId == i + 1 <= nodesNumber ==>
              LoadSeed(nodesNumber, config, nodeId) == Some(config.nodes[i].seed)
  {
  }

  /** The name shows the number. */
  lemma NameShowsNumber(archipelName: string, nodeId: nat) returns (digits: string)
    ensures NodeName(archipelName, nodeId) == archipelName + "-NODE-" + digits
    ensures ParseDecimal(digits) == nodeId
  {
    DecimalRoundTrip(nodeId);
    digits := Decimal(nodeId);
  }

  /** Names tell nodes apart. */
  lemma NamesDiffer(archipelName: string, a: nat, b: nat)
    requires NodeName(archipelName, a) == NodeName(archipelName, b)
    ensures a == b
  {
    var prefix := archipelName + "-NODE-";
    assert NodeName(archipelName, a)[|prefix|..] == Decimal(a);
    assert NodeName(archipelName, b)[|prefix|..] == Decimal(b);
    DecimalRoundTrip(a);
    DecimalRoundTrip(b);
  }

  /** Of a joined list of addresses, every address is named in its place. */
  lemma NodesListOf(nodesWallets: string, addresses: seq<string>, archipelName: string)
    returns (nodes: seq<NamedWallet>)
    requires nodesWallets == Join(addresses) && addresses != [] && archipelName != ""
    requires forall i :: 0 <= i < |addresses| ==> CommaFree(addresses[i]) && addresses[i] != ""
    ensures nodes == ConstructNodesList(nodesWallets, archipelName) && |nodes| == |addresses|
    ensures forall i :: 0 <= i < |nodes| ==> nodes[i] == NamedWallet(addresses[i], NodeName(archipelName, i + 1))
  {
    SplitJoin(addresses);
    assert Split("") == [""];
    nodes := ConstructNodesList(nodesWallets, archipelName);
  }

  /** For every node number of a generated configuration, the seed it loads and the wallet that the nodes list
      names with its number come from the same key pair; and if the addresses differ, looking the wallet up finds
      that name and no other. */
  lemma SeedAndNameAgree(config: ArchipelConfig, keys: seq<KeyPair>, nodeIds: seq<NodeId>, archipelName: string,
                         nodeId: nat)
    requires GeneratedFrom(config, keys, nodeIds) && archipelName != ""
    requires forall i :: 0 <= i < |keys| ==> CommaFree(keys[i].sr25519Address) && keys[i].sr25519Address != ""
    requires 1 <= nodeId <= |keys|
    ensures var nodes, key := ConstructNodesList(config.sr25519List, archipelName), keys[nodeId - 1];
            && |nodes| == |keys|
            && LoadSeed(|keys|, config, nodeId) == Some(key.seed)
            && (forall k :: 0 <= k < |nodes| && nodes[k].name == NodeName(archipelName, nodeId) ==>
                  nodes[k].wallet == key.sr25519Address)
            && ((forall i, j :: 0 <= i < j < |keys| ==> keys[i].sr25519Address != keys[j].sr25519Address) ==>
                  forall k :: 0 <= k < |nodes| && nodes[k].wallet == key.sr25519Address ==>
                    nodes[k].name == NodeName(archipelName, nodeId))
  {
    var nodes := NodesListOf(config.sr25519List, SrAddresses(keys), archipelName);
    forall k | 0 <= k < |nodes| && nodes[k].name == NodeName(archipelName, nodeId)
      ensures nodes[k].wallet == keys[nodeId - 1].sr25519Address
    {
      NamesDiffer(archipelName, k + 1, nodeId);
    }
  }
}
