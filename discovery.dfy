/**
 * estransport/discovery.go: node discovery. The client asks a node for the
 * cluster's nodes, maps each node's publish address to a URL, keeps the
 * nodes that hold both the "data" and the "ingest" role, and replaces its
 * connection pool with connections to them.
 */
module Discovery {
  import opened Wrappers
  import opened Strings
  import opened StringSort
  import opened Json

  /** url.URL as discovery fills it: a scheme and a host:port. */
  datatype Url = Url(scheme: string, host: string)

  /** A node of the "nodes" object of the nodes-info reply, before its ID and URL are filled in. */
  datatype NodeEntry = NodeEntry(
    name: string,
    roles: seq<string>,
    attributes: map<string, JsonValue>,
    publishAddress: string)

  /** nodeInfo once getNodesInfo has set its ID and URL. */
  datatype NodeInfo = NodeInfo(
    id: string,
    name: string,
    url: Url,
    roles: seq<string>,
    attributes: map<string, JsonValue>,
    publishAddress: string)

  datatype Connection = Connection(
    url: Url,
    id: string,
    name: string,
    roles: seq<string>,
    attributes: map<string, JsonValue>)

  /** The connection pool, reduced to the connections it was built from. */
  datatype Pool = Pool(connections: seq<Connection>)

  /**
   * What fetching GET /_nodes/http gave: no connection from the pool, a
   * round-trip error, or a reply with its status and body, and the "nodes"
   * object decoded (in map iteration order) or the decoding error.
   */
  datatype NodesFetch =
    | NoConnection(reason: string)
    | TransportFailed(reason: string)
    | Reply(statusCode: int, status: string, body: string, nodes: Result<seq<(string, NodeEntry)>, string>)

  datatype DiscoveryError =
    | NextFailed(reason: string)
    | RoundTripFailed(reason: string)
    | ServerError(status: string, body: string)
    | DecodeFailed(reason: string)
    | GetNodes(cause: DiscoveryError)

  // ---------------------------------------------------------------- getNodeURL

  /** The host and port, joined as url.URL's Host. */
  function HostPort(host: string, port: string): string
  {
    host + ":" + port
  }

  /** The port is the text after the last ':' (the whole address when there is none). */
  predicate IsPortOf(port: string, addr: string)
  {
    && |port| <= |addr| && addr[|addr| - |port|..] == port && ':' !in port
    && (|port| < |addr| ==> addr[|addr| - |port| - 1] == ':')
    && (|port| == |addr| <==> ':' !in addr)
  }

  /** The last piece of the address split at ':'. */
  function Port(addr: string): (port: string)
    ensures IsPortOf(port, addr)
  {
    SplitLast(addr, ':');
    Last(Split(addr, ':'))
  }

  /**
   * getNodeURL as written: the host is the text before the first '/' when
   * there is one, and otherwise the text before the first ':'; the port is
   * the text after the last ':'. It never fails.
   */
  function GetNodeUrlAsWritten(publishAddress: string, scheme: string): (r: Result<Url, string>)
    ensures r.Success? && r.value.scheme == scheme
  {
    var addrs := Split(publishAddress, '/');
    var host := if |addrs| > 1 then addrs[0] else Split(addrs[0], ':')[0];
    Success(Url(scheme, HostPort(host, Port(publishAddress))))
  }

  /**
   * getNodeURL with the host taken as the text before the LAST ':' when the
   * address has no '/', so that a bracketed IPv6 address stays whole.
   */
  function GetNodeUrl(publishAddress: string, scheme: string): (r: Result<Url, string>)
    ensures r.Success? && r.value.scheme == scheme
  {
    var addrs := Split(publishAddress, '/');
    var ports := Split(publishAddress, ':');
    var host :=
      if |addrs| > 1 then addrs[0]
      else if |ports| > 1 then Join(ports[..|ports| - 1], ":")
      else addrs[0];
    Success(Url(scheme, HostPort(host, Port(publishAddress))))
  }

  lemma NoSlash(addr: string)
    requires '/' !in addr
    ensures Split(addr, '/') == [addr]
  {
    SplitFirst(addr, '/');
  }

  /** The host rules of the code as written. */
  lemma NodeUrlAsWrittenRules(addr: string, scheme: string)
    ensures '/' in addr ==>
      GetNodeUrlAsWritten(addr, scheme).value.host == HostPort(addr[..IndexOf(addr, '/')], Port(addr))
    ensures '/' !in addr ==>
      GetNodeUrlAsWritten(addr, scheme).value.host == HostPort(addr[..IndexOf(addr, ':')], Port(addr))
  {
    SplitFirst(addr, '/');
    if '/' !in addr {
      NoSlash(addr);
      SplitFirst(addr, ':');
    }
  }

  /** Rejoining all pieces but the last, then the last, gives the address back. */
  lemma RejoinHostPort(addr: string)
    requires ':' in addr
    ensures var ports := Split(addr, ':');
      |ports| > 1 && HostPort(Join(ports[..|ports| - 1], ":"), Port(addr)) == addr
  {
    var ports := Split(addr, ':');
    SplitFirst(addr, ':');
    var init := ports[..|ports| - 1];
    assert ports == init + [Port(addr)];
    JoinSnoc(init, Port(addr), ":");
    JoinSplit(addr, ':');
  }

  lemma NodeUrlWithSlash(addr: string, scheme: string)
    requires '/' in addr
    ensures GetNodeUrl(addr, scheme).value.host == HostPort(addr[..IndexOf(addr, '/')], Port(addr))
  {
    SplitFirst(addr, '/');
  }

  lemma NodeUrlHostPort(addr: string, scheme: string)
    requires '/' !in addr && ':' in addr
    ensures GetNodeUrl(addr, scheme).value.host == addr
  {
    NoSlash(addr);
    RejoinHostPort(addr);
  }

  lemma NodeUrlBare(addr: string, scheme: string)
    requires '/' !in addr && ':' !in addr
    ensures GetNodeUrl(addr, scheme).value.host == HostPort(addr, addr)
  {
    NoSlash(addr);
    SplitFirst(addr, ':');
    assert Port(addr) == addr;
  }

  /**
   * The corrected rules: with a '/', the host is the text before it; without
   * one, Host is the publish address itself whenever it holds a ':'.
   */
  lemma NodeUrlRules(addr: string, scheme: string)
    ensures '/' in addr ==>
      GetNodeUrl(addr, scheme).value.host == HostPort(addr[..IndexOf(addr, '/')], Port(addr))
    ensures '/' !in addr && ':' in addr ==> GetNodeUrl(addr, scheme).value.host == addr
    ensures '/' !in addr && ':' !in addr ==> GetNodeUrl(addr, scheme).value.host == HostPort(addr, addr)
  {
    if '/' in addr {
      NodeUrlWithSlash(addr, scheme);
    } else if ':' in addr {
      NodeUrlHostPort(addr, scheme);
    } else {
      NodeUrlBare(addr, scheme);
    }
  }

  /** Where the address has a '/' or at most one ':', the correction changes nothing. */
  lemma CorrectionAgrees(addr: string, scheme: string)
    requires '/' in addr || |Split(addr, ':')| <= 2
    ensures GetNodeUrl(addr, scheme) == GetNodeUrlAsWritten(addr, scheme)
  {
    SplitFirst(addr, '/');
    if '/' !in addr {
      NoSlash(addr);
      var ports := Split(addr, ':');
      if |ports| == 2 {
        assert ports[..1] == [ports[0]];
      }
    }
  }

  /** The IPv6 loopback as Elasticsearch publishes it loses all but its first character. */
  lemma IPv6AddressMangled(addr: string)
    requires addr == "[::1]:9200"
    ensures GetNodeUrlAsWritten(addr, "http").value.host == "[:9200"
  {
    assert '/' !in addr;
    NodeUrlAsWrittenRules(addr, "http");
    assert IndexOf(addr, ':') == 1;
    var port := Port(addr);
    assert addr[5] == ':' && addr[6..] == "9200";
    assert |port| == 4;
    assert port == "9200";
    assert addr[..1] == "[";
  }

  /** The corrected parser keeps the IPv6 address whole. */
  lemma IPv6AddressKept(addr: string)
    requires addr == "[::1]:9200"
    ensures GetNodeUrl(addr, "http").value.host == addr
  {
    assert '/' !in addr && ':' in addr;
    NodeUrlHostPort(addr, "http");
  }

  // ---------------------------------------------------------------- getNodesInfo

  function NodeOf(scheme: string, id: string, e: NodeEntry): NodeInfo
  {
    NodeInfo(id, e.name, GetNodeUrl(e.publishAddress, scheme).value, e.roles, e.attributes, e.publishAddress)
  }

  /** The nodes of a decoded reply, in the order given, each with its key as ID. */
  function NodeInfos(scheme: string, entries: seq<(string, NodeEntry)>): seq<NodeInfo>
  {
    seq(|entries|, k requires 0 <= k < |entries| => NodeOf(scheme, entries[k].0, entries[k].1))
  }

  /** The loop of getNodesInfo: one node per entry, in the order given. */
  method CollectNodes(scheme: string, entries: seq<(string, NodeEntry)>) returns (out: seq<NodeInfo>)
    ensures out == NodeInfos(scheme, entries)
  {
    out := [];
    var i := 0;
    while i < |entries|
      invariant 0 <= i <= |entries|
      invariant |out| == i
      invariant forall k :: 0 <= k < i ==> out[k] == NodeOf(scheme, entries[k].0, entries[k].1)
    {
      var (id, node) := entries[i];
      var u := GetNodeUrl(node.publishAddress, scheme).value;
      out := out + [NodeInfo(id, node.name, u, node.roles, node.attributes, node.publishAddress)];
      i := i + 1;
    }
  }

  /** What getNodesInfo returns for a fetch outcome, using the scheme of the first configured URL. */
  function NodesInfo(scheme: string, fetch: NodesFetch): Result<seq<NodeInfo>, DiscoveryError>
  {
    match fetch
    case NoConnection(e) => Failure(NextFailed(e))
    case TransportFailed(e) => Failure(RoundTripFailed(e))
    case Reply(code, status, body, nodes) =>
      if code > 200 then Failure(ServerError(status, body))
      else
        match nodes
        case Failure(e) => Failure(DecodeFailed(e))
        case Success(entries) => Success(NodeInfos(scheme, entries))
  }

  /** Only a reply of status at most 200 whose nodes decode succeeds; any status above 200 is a server error. */
  lemma NodesInfoOutcome(scheme: string, fetch: NodesFetch)
    ensures NodesInfo(scheme, fetch).Success? <==>
      fetch.Reply? && fetch.statusCode <= 200 && fetch.nodes.Success?
    ensures fetch.Reply? && fetch.statusCode > 200 ==>
      NodesInfo(scheme, fetch) == Failure(ServerError(fetch.status, fetch.body))
    ensures NodesInfo(scheme, fetch).Success? ==>
      |NodesInfo(scheme, fetch).value| == |fetch.nodes.value|
  {
  }

  // ---------------------------------------------------------------- role filter

  /** The role test of DiscoverNodes: sort a copy of the roles and binary-search it. */
  function HasRole(roles: seq<string>, role: string): (r: bool)
    ensures r <==> role in roles
  {
    SearchSortedFinds(roles, role);
    var sorted := Sort(roles);
    var i := SearchStrings(sorted, role);
    i < |sorted| && sorted[i] == role
  }

  predicate IsDataIngest(roles: seq<string>)
  {
    "data" in roles && "ingest" in roles
  }

  function ToConnection(n: NodeInfo): Connection
  {
    Connection(n.url, n.id, n.name, n.roles, n.attributes)
  }

  /** The connections DiscoverNodes builds: one per data-and-ingest node, in node order. */
  function Eligible(nodes: seq<NodeInfo>): seq<Connection>
  {
    if nodes == [] then []
    else
      var last := nodes[|nodes| - 1];
      Eligible(nodes[..|nodes| - 1]) + (if IsDataIngest(last.roles) then [ToConnection(last)] else [])
  }

  /**
   * A connection is built exactly for the nodes holding both roles, and it
   * carries the node's URL, ID, name, roles (in their original order) and
   * attributes.
   */
  lemma {:induction false} EligibleMembership(nodes: seq<NodeInfo>)
    ensures forall c :: c in Eligible(nodes) <==>
      exists j :: 0 <= j < |nodes| && IsDataIngest(nodes[j].roles) && c == ToConnection(nodes[j])
  {
    if nodes != [] {
      var init := nodes[..|nodes| - 1];
      EligibleMembership(init);
      forall c
        ensures c in Eligible(nodes) <==>
          exists j :: 0 <= j < |nodes| && IsDataIngest(nodes[j].roles) && c == ToConnection(nodes[j])
      {
        if c in Eligible(init) {
          var j :| 0 <= j < |init| && IsDataIngest(init[j].roles) && c == ToConnection(init[j]);
          assert nodes[j] == init[j];
        }
        if exists j :: 0 <= j < |nodes| && IsDataIngest(nodes[j].roles) && c == ToConnection(nodes[j]) {
          var j :| 0 <= j < |nodes| && IsDataIngest(nodes[j].roles) && c == ToConnection(nodes[j]);
          if j < |init| {
            assert init[j] == nodes[j];
          }
        }
      }
    }
  }

  /** No more connections than nodes, and exactly as many when every node holds both roles. */
  lemma {:induction false} EligibleCount(nodes: seq<NodeInfo>)
    ensures |Eligible(nodes)| <= |nodes|
    ensures (forall k :: 0 <= k < |nodes| ==> IsDataIngest(nodes[k].roles)) ==>
      Eligible(nodes) == seq(|nodes|, k requires 0 <= k < |nodes| => ToConnection(nodes[k]))
  {
    if nodes != [] {
      var init := nodes[..|nodes| - 1];
      EligibleCount(init);
      if forall k :: 0 <= k < |nodes| ==> IsDataIngest(nodes[k].roles) {
        assert forall k :: 0 <= k < |init| ==> IsDataIngest(init[k].roles) by {
          forall k | 0 <= k < |init| ensures IsDataIngest(init[k].roles) {
            assert init[k] == nodes[k];
          }
        }
      }
    }
  }

  /** The loop of DiscoverNodes: a connection for each node holding both the data and the ingest role. */
  method ConnectEligible(list: seq<NodeInfo>) returns (conns: seq<Connection>)
    ensures conns == Eligible(list)
  {
    conns := [];
    var i := 0;
    while i < |list|
      invariant 0 <= i <= |list|
      invariant conns == Eligible(list[..i])
    {
      var node := list[i];
      assert list[..i + 1][..i] == list[..i];
      var isDataNode := HasRole(node.roles, "data");
      var isIngestNode := HasRole(node.roles, "ingest");
      if !isDataNode || !isIngestNode {
        i := i + 1;
        continue;
      }
      conns := conns + [Connection(node.url, node.id, node.name, node.roles, node.attributes)];
      i := i + 1;
    }
    assert list[..i] == list;
  }

  // ---------------------------------------------------------------- the client

  class Client {
    const urls: seq<Url>
    var pool: Pool

    constructor (urls: seq<Url>, pool: Pool)
      ensures this.urls == urls && this.pool == pool
    {
      this.urls := urls;
      this.pool := pool;
    }

    /** getNodesInfo: the node list, each node with its map key as ID and its URL in the first configured URL's scheme. */
    method GetNodesInfo(fetch: NodesFetch) returns (r: Result<seq<NodeInfo>, DiscoveryError>)
      requires |urls| > 0
      ensures r == NodesInfo(urls[0].scheme, fetch)
    {
      var scheme := urls[0].scheme;
      match fetch {
        case NoConnection(e) =>
          return Failure(NextFailed(e));
        case TransportFailed(e) =>
          return Failure(RoundTripFailed(e));
        case Reply(code, status, body, nodes) =>
          if code > 200 {
            return Failure(ServerError(status, body));
          }
          if nodes.Failure? {
            return Failure(DecodeFailed(nodes.error));
          }
          var out := CollectNodes(scheme, nodes.value);
          return Success(out);
      }
    }

    /**
     * DiscoverNodes: when getting the nodes fails, the error is wrapped and
     * the pool is left as it was; otherwise the pool is replaced by the
     * connections to the data-and-ingest nodes, even when there are none.
     */
    method DiscoverNodes(fetch: NodesFetch) returns (err: Option<DiscoveryError>)
      requires |urls| > 0
      modifies this
      ensures var info := NodesInfo(urls[0].scheme, fetch);
        && (info.Failure? ==> err == Some(GetNodes(info.error)) && pool == old(pool))
        && (info.Success? ==> err == None && pool == Pool(Eligible(info.value)))
    {
      var nodes := GetNodesInfo(fetch);
      ghost var info := NodesInfo(urls[0].scheme, fetch);
      assert nodes == info;
      if nodes.Failure? {
        return Some(GetNodes(nodes.error));
      }
      var conns := ConnectEligible(nodes.value);
      pool := Pool(conns);
      return None;
    }
  }

  /** Three nodes, one without the ingest role: the new pool holds the other two, in order. */
  lemma MasterOnlyNodeSkipped(a: NodeInfo, b: NodeInfo, c: NodeInfo)
    requires a.roles == ["master", "data", "ingest"]
    requires b.roles == ["master"]
    requires c.roles == ["ingest", "data", "data"]
    ensures Eligible([a, b, c]) == [ToConnection(a), ToConnection(c)]
  {
    assert Eligible([a]) == [ToConnection(a)];
    assert Eligible([a, b]) == [ToConnection(a)];
    assert [a, b, c][..2] == [a, b];
    assert [a, b][..1] == [a];
    assert [a][..0] == [];
    assert "data" in a.roles && "ingest" in a.roles;
    assert "ingest" !in b.roles;
    assert "data" in c.roles && "ingest" in c.roles;
  }
}
