/**
 * The cluster_health web service action: rejects the query on a standalone
 * server, otherwise maps the cluster's Health and the health reports of
 * its nodes into the protobuf response, through three builders that are
 * reused (cleared, then filled) for every cause and every node.
 */
module ClusterHealthAction {
  import opened Wrappers
  import opened Health
  import Text

  /** NodeDetails.Type, in declaration order. */
  datatype NodeType = APPLICATION | SEARCH

  function TypeOrdinal(t: NodeType): nat
  {
    match t
    case APPLICATION => 0
    case SEARCH => 1
  }

  function TypeName(t: NodeType): string
  {
    match t
    case APPLICATION => "APPLICATION"
    case SEARCH => "SEARCH"
  }

  /** The identity of one cluster member; started is a timestamp in milliseconds. */
  datatype NodeDetails = NodeDetails(nodeType: NodeType, name: string, host: string, port: int, started: int)

  /** The health a node published for itself, with the date it was observed. */
  datatype NodeHealth = NodeHealth(status: Status, causes: set<string>, details: NodeDetails, date: int)

  /** What HealthChecker.checkCluster hands to the action: the cluster's health and its nodes, in iteration order. */
  datatype ClusterHealth = ClusterHealth(health: Health, nodes: seq<NodeHealth>)

  /** WsSystem.Health, the protobuf enum of the response. */
  datatype WsHealth = WsGreen | WsYellow | WsRed

  function WsHealthName(h: WsHealth): string
  {
    match h
    case WsGreen => "GREEN"
    case WsYellow => "YELLOW"
    case WsRed => "RED"
  }

  /** WsSystem.Health.valueOf: the constant of that name, if there is one. */
  function WsHealthValueOf(name: string): (r: Option<WsHealth>)
    ensures r.Some? ==> WsHealthName(r.value) == name
    ensures forall w :: WsHealthName(w) == name ==> r == Some(w)
  {
    if name == "GREEN" then Some(WsGreen)
    else if name == "YELLOW" then Some(WsYellow)
    else if name == "RED" then Some(WsRed)
    else None
  }

  /** WsSystem.Health.valueOf(status.name()): never fails, and keeps the name. */
  function ToWsHealth(s: Status): (w: WsHealth)
    ensures WsHealthName(w) == StatusName(s)
  {
    WsHealthValueOf(StatusName(s)).value
  }

  /** WsSystem.NodeType, the protobuf enum of the response. */
  datatype WsNodeType = WsApplication | WsSearch

  function WsNodeTypeName(t: WsNodeType): string
  {
    match t
    case WsApplication => "APPLICATION"
    case WsSearch => "SEARCH"
  }

  /** WsSystem.NodeType.valueOf: the constant of that name, if there is one. */
  function WsNodeTypeValueOf(name: string): (r: Option<WsNodeType>)
    ensures r.Some? ==> WsNodeTypeName(r.value) == name
    ensures forall t :: WsNodeTypeName(t) == name ==> r == Some(t)
  {
    if name == "APPLICATION" then Some(WsApplication)
    else if name == "SEARCH" then Some(WsSearch)
    else None
  }

  /** WsSystem.NodeType.valueOf(type.name()): never fails, and keeps the name. */
  function ToWsNodeType(t: NodeType): (w: WsNodeType)
    ensures WsNodeTypeName(w) == TypeName(t)
  {
    WsNodeTypeValueOf(TypeName(t)).value
  }

  /** The protobuf messages of the response. A Node's health is absent when never set. */
  datatype Cause = Cause(message: string)

  datatype Node = Node(
    health: Option<WsHealth>,
    causes: seq<Cause>,
    nodeType: Option<WsNodeType>,
    name: string,
    host: string,
    port: string,
    started: string)

  datatype ClusterHealthResponse = ClusterHealthResponse(health: Option<WsHealth>, causes: seq<Cause>, nodes: seq<Node>)

  /** The HTTP outcome of handle: a status code and the protobuf body, if one was written. */
  datatype WsResponse = WsResponse(status: int, body: Option<ClusterHealthResponse>)

  function Messages(causes: seq<Cause>): (r: seq<string>)
    ensures |r| == |causes|
    ensures forall i :: 0 <= i < |causes| ==> r[i] == causes[i].message
  {
    seq(|causes|, i requires 0 <= i < |causes| => causes[i].message)
  }

  /** The causes of a response list every cause of a set exactly once (in the set's iteration order). */
  ghost predicate ListsEachOnce(causes: seq<Cause>, of: set<string>)
  {
    multiset(Messages(causes)) == multiset(of)
  }

  lemma MessagesAppend(causes: seq<Cause>, c: Cause)
    ensures Messages(causes + [c]) == Messages(causes) + [c.message]
  {
  }

  lemma MultisetOfSetAdd(a: set<string>, x: string)
    requires x !in a
    ensures multiset(a + {x}) == multiset(a) + multiset{x}
  {
    assert forall y :: multiset(a + {x})[y] == (multiset(a) + multiset{x})[y];
  }

  /** Sort key of the stream: the ordinal of the node's type. */
  function Key(n: NodeHealth): nat
  {
    TypeOrdinal(n.details.nodeType)
  }

  /** Inserts x before the first node whose key is not smaller. */
  function InsertByType(x: NodeHealth, s: seq<NodeHealth>): seq<NodeHealth>
  {
    if s == [] then [x]
    else if Key(x) <= Key(s[0]) then [x] + s
    else [s[0]] + InsertByType(x, s[1..])
  }

  /** stream().sorted(comparingInt(type ordinal)): a stable sort by type ordinal. */
  function SortByType(s: seq<NodeHealth>): seq<NodeHealth>
  {
    if s == [] then []
    else InsertByType(s[0], SortByType(s[1..]))
  }

  ghost predicate SortedByType(s: seq<NodeHealth>)
  {
    forall i, j :: 0 <= i < j < |s| ==> Key(s[i]) <= Key(s[j])
  }

  /** The nodes of one type, in their order in s. */
  function OfType(s: seq<NodeHealth>, t: NodeType): seq<NodeHealth>
  {
    if s == [] then []
    else (if s[0].details.nodeType == t then [s[0]] else []) + OfType(s[1..], t)
  }

  /** Inserting adds x once and keeps every other node. */
  lemma {:induction false} InsertByTypeMultiset(x: NodeHealth, s: seq<NodeHealth>)
    ensures multiset(InsertByType(x, s)) == multiset(s) + multiset{x}
  {
    if s != [] && Key(x) > Key(s[0]) {
      InsertByTypeMultiset(x, s[1..]);
      assert s == [s[0]] + s[1..];
    }
  }

  /** Inserting into a sorted list keeps it sorted. */
  lemma {:induction false} InsertByTypeSorted(x: NodeHealth, s: seq<NodeHealth>)
    requires SortedByType(s)
    ensures SortedByType(InsertByType(x, s))
  {
    if s != [] && Key(x) > Key(s[0]) {
      var r := InsertByType(x, s);
      var rest := InsertByType(x, s[1..]);
      InsertByTypeSorted(x, s[1..]);
      InsertByTypeMultiset(x, s[1..]);
      assert r == [s[0]] + rest;
      forall i, j | 0 <= i < j < |r| ensures Key(r[i]) <= Key(r[j]) {
        if i == 0 {
          assert r[j] == rest[j - 1];
          assert r[j] in multiset(rest);
          if r[j] != x {
            assert r[j] in multiset(s[1..]);
            assert r[j] in s[1..];
          }
        } else {
          assert r[i] == rest[i - 1] && r[j] == rest[j - 1];
        }
      }
    }
  }

  /** In a sorted list, x goes after every node of a lower type and before every node of its own type. */
  lemma {:induction false} InsertByTypeOfType(x: NodeHealth, s: seq<NodeHealth>, t: NodeType)
    requires SortedByType(s)
    ensures OfType(InsertByType(x, s), t) == (if x.details.nodeType == t then [x] else []) + OfType(s, t)
  {
    if s != [] && Key(x) > Key(s[0]) {
      var r := InsertByType(x, s);
      var rest := InsertByType(x, s[1..]);
      InsertByTypeOfType(x, s[1..], t);
      assert r == [s[0]] + rest && r[1..] == rest;
      assert x.details.nodeType != s[0].details.nodeType;
    } else if s != [] {
      assert InsertByType(x, s)[1..] == s;
    }
  }

  /**
   * The sort of the node stream puts the nodes in non-decreasing type
   * ordinal, keeps every node exactly once, and is stable: the nodes of
   * one type keep their input order.
   */
  lemma {:induction false} SortByTypeIsStableSort(s: seq<NodeHealth>)
    ensures SortedByType(SortByType(s))
    ensures multiset(SortByType(s)) == multiset(s)
    ensures |SortByType(s)| == |s|
    ensures forall t :: OfType(SortByType(s), t) == OfType(s, t)
  {
    if s != [] {
      SortByTypeIsStableSort(s[1..]);
      InsertByTypeSorted(s[0], SortByType(s[1..]));
      InsertByTypeMultiset(s[0], SortByType(s[1..]));
      forall t ensures OfType(SortByType(s), t) == OfType(s, t) {
        InsertByTypeOfType(s[0], SortByType(s[1..]), t);
      }
      assert s == [s[0]] + s[1..];
      assert multiset(s) == multiset{s[0]} + multiset(s[1..]);
    }
    assert |SortByType(s)| == |multiset(SortByType(s))|;
  }

  /**
   * What toNode promises about one entry: type, name, host, decimal port
   * and formatted start date from the details; for a SEARCH node no health
   * and no cause, for any other node its own status and each of its causes
   * once.
   */
  ghost predicate IsNodeFor(n: Node, nh: NodeHealth, formatDateTime: int -> string)
  {
    && n.nodeType == Some(ToWsNodeType(nh.details.nodeType))
    && n.name == nh.details.name
    && n.host == nh.details.host
    && n.port == Text.IntToString(nh.details.port)
    && n.started == formatDateTime(nh.details.started)
    && if nh.details.nodeType == SEARCH then n.health == None && n.causes == []
       else n.health == Some(ToWsHealth(nh.status)) && ListsEachOnce(n.causes, nh.causes)
  }

  /**
   * What toResponse promises: the cluster status under the same name, each
   * cluster cause once, and one entry per node in the order of the stable
   * sort by type.
   */
  ghost predicate IsResponseFor(r: ClusterHealthResponse, check: ClusterHealth, formatDateTime: int -> string)
  {
    var sorted := SortByType(check.nodes);
    && r.health == Some(ToWsHealth(check.health.status))
    && ListsEachOnce(r.causes, check.health.causes)
    && |r.nodes| == |sorted|
    && forall i :: 0 <= i < |r.nodes| ==> IsNodeFor(r.nodes[i], sorted[i], formatDateTime)
  }

  /** WsSystem.Cause.Builder. */
  class CauseBuilder {
    var message: string

    constructor ()
      ensures message == ""
    {
      message := "";
    }

    method Clear()
      modifies this
      ensures message == ""
    {
      message := "";
    }

    method SetMessage(m: string)
      modifies this
      ensures message == m
    {
      message := m;
    }

    method Build() returns (c: Cause)
      ensures c == Cause(message)
    {
      c := Cause(message);
    }
  }

  /** WsSystem.Node.Builder. */
  class NodeBuilder {
    var health: Option<WsHealth>
    var causes: seq<Cause>
    var nodeType: Option<WsNodeType>
    var name: string
    var host: string
    var port: string
    var started: string

    /** The builder of a freshly cleared node: nothing set. */
    ghost predicate IsClear()
      reads this
    {
      health == None && causes == [] && nodeType == None && name == "" && host == "" && port == "" && started == ""
    }

    constructor ()
      ensures IsClear()
    {
      health, causes, nodeType := None, [], None;
      name, host, port, started := "", "", "", "";
    }

    method Clear()
      modifies this
      ensures IsClear()
    {
      health, causes, nodeType := None, [], None;
      name, host, port, started := "", "", "", "";
    }

    method SetHealth(h: WsHealth)
      modifies this
      ensures health == Some(h)
      ensures causes == old(causes) && nodeType == old(nodeType) && name == old(name)
      ensures host == old(host) && port == old(port) && started == old(started)
    {
      health := Some(h);
    }

    method AddCauses(c: Cause)
      modifies this
      ensures causes == old(causes) + [c]
      ensures health == old(health) && nodeType == old(nodeType) && name == old(name)
      ensures host == old(host) && port == old(port) && started == old(started)
    {
      causes := causes + [c];
    }

    /** setType, setName, setHost, setPort and setStarted, chained. */
    method SetDetails(t: WsNodeType, n: string, h: string, p: string, s: string)
      modifies this
      ensures nodeType == Some(t) && name == n && host == h && port == p && started == s
      ensures health == old(health) && causes == old(causes)
    {
      nodeType, name, host, port, started := Some(t), n, h, p, s;
    }

    method Build() returns (n: Node)
      ensures n == Node(health, causes, nodeType, name, host, port, started)
    {
      n := Node(health, causes, nodeType, name, host, port, started);
    }
  }

  /** WsSystem.ClusterHealthResponse.Builder. */
  class ResponseBuilder {
    var health: Option<WsHealth>
    var causes: seq<Cause>
    var nodes: seq<Node>

    constructor ()
      ensures health == None && causes == [] && nodes == []
    {
      health, causes, nodes := None, [], [];
    }

    method SetHealth(h: WsHealth)
      modifies this
      ensures health == Some(h) && causes == old(causes) && nodes == old(nodes)
    {
      health := Some(h);
    }

    method AddCauses(c: Cause)
      modifies this
      ensures causes == old(causes) + [c] && health == old(health) && nodes == old(nodes)
    {
      causes := causes + [c];
    }

    method AddNodes(n: Node)
      modifies this
      ensures nodes == old(nodes) + [n] && health == old(health) && causes == old(causes)
    {
      nodes := nodes + [n];
    }

    method Build() returns (r: ClusterHealthResponse)
      ensures r == ClusterHealthResponse(health, causes, nodes)
    {
      r := ClusterHealthResponse(health, causes, nodes);
    }
  }

  /** toCause: whatever the builder held, the cause carries exactly the message. */
  method ToCause(str: string, causeBuilder: CauseBuilder) returns (c: Cause)
    modifies causeBuilder
    ensures c == Cause(str)
  {
    causeBuilder.Clear();
    causeBuilder.SetMessage(str);
    c := causeBuilder.Build();
  }

  /**
   * toNode: the node builder is cleared first, so the entry holds only what
   * this node contributes, whatever an earlier node left in the builders.
   */
  method ToNode(nodeHealth: NodeHealth, nodeBuilder: NodeBuilder, causeBuilder: CauseBuilder,
                formatDateTime: int -> string)
    returns (n: Node)
    requires nodeBuilder != causeBuilder as object
    modifies nodeBuilder, causeBuilder
    ensures IsNodeFor(n, nodeHealth, formatDateTime)
  {
    nodeBuilder.Clear();
    if nodeHealth.details.nodeType != SEARCH {
      nodeBuilder.SetHealth(ToWsHealth(nodeHealth.status));
      var rest := nodeHealth.causes;
      while rest != {}
        invariant rest <= nodeHealth.causes
        invariant multiset(Messages(nodeBuilder.causes)) == multiset(nodeHealth.causes - rest)
        invariant nodeBuilder.health == Some(ToWsHealth(nodeHealth.status))
        invariant nodeBuilder.nodeType == None
        decreases rest
      {
        var str :| str in rest;
        var c := ToCause(str, causeBuilder);
        ghost var before := nodeBuilder.causes;
        nodeBuilder.AddCauses(c);
        MessagesAppend(before, c);
        assert nodeHealth.causes - (rest - {str}) == (nodeHealth.causes - rest) + {str};
        MultisetOfSetAdd(nodeHealth.causes - rest, str);
        rest := rest - {str};
      }
      assert nodeHealth.causes - rest == nodeHealth.causes;
    }
    var details := nodeHealth.details;
    nodeBuilder.SetDetails(ToWsNodeType(details.nodeType), details.name, details.host,
                           Text.IntToString(details.port), formatDateTime(details.started));
    n := nodeBuilder.Build();
  }

  /** toResponse: the cluster status and causes, then one entry per node in sorted order. */
  method ToResponse(check: ClusterHealth, formatDateTime: int -> string) returns (r: ClusterHealthResponse)
    ensures IsResponseFor(r, check, formatDateTime)
  {
    var responseBuilder := new ResponseBuilder();
    var nodeBuilder := new NodeBuilder();
    var causeBuilder := new CauseBuilder();

    var health := check.health;
    responseBuilder.SetHealth(ToWsHealth(health.status));
    var rest := health.causes;
    while rest != {}
      invariant rest <= health.causes
      invariant multiset(Messages(responseBuilder.causes)) == multiset(health.causes - rest)
      invariant responseBuilder.health == Some(ToWsHealth(health.status))
      invariant responseBuilder.nodes == []
      decreases rest
    {
      var str :| str in rest;
      var c := ToCause(str, causeBuilder);
      ghost var before := responseBuilder.causes;
      responseBuilder.AddCauses(c);
      MessagesAppend(before, c);
      assert health.causes - (rest - {str}) == (health.causes - rest) + {str};
      MultisetOfSetAdd(health.causes - rest, str);
      rest := rest - {str};
    }
    assert health.causes - rest == health.causes;

    var sorted := SortByType(check.nodes);
    var i := 0;
    while i < |sorted|
      invariant 0 <= i <= |sorted|
      invariant |responseBuilder.nodes| == i
      invariant forall k :: 0 <= k < i ==> IsNodeFor(responseBuilder.nodes[k], sorted[k], formatDateTime)
      invariant responseBuilder.health == Some(ToWsHealth(health.status))
      invariant ListsEachOnce(responseBuilder.causes, health.causes)
    {
      var n := ToNode(sorted[i], nodeBuilder, causeBuilder, formatDateTime);
      responseBuilder.AddNodes(n);
      i := i + 1;
    }
    r := responseBuilder.Build();
  }

  /**
   * handle: a standalone server answers 501 and writes nothing; a cluster
   * member answers 200 with the response built from checkCluster's result.
   */
  method Handle(isStandalone: bool, check: ClusterHealth, formatDateTime: int -> string)
    returns (response: WsResponse)
    ensures isStandalone ==> response == WsResponse(501, None)
    ensures !isStandalone ==>
      response.status == 200 && response.body.Some? && IsResponseFor(response.body.value, check, formatDateTime)
  {
    if isStandalone {
      response := WsResponse(501, None);
      return;
    }
    var body := ToResponse(check, formatDateTime);
    response := WsResponse(200, Some(body));
  }

  /**
   * Consequences for a reader of the response: one entry per node, entries
   * in non-decreasing type ordinal, each entry's type, name, host and port
   * (which reads back as the node's port) taken from one node, and the
   * entries of each type in the order the nodes were given.
   */
  lemma ResponseNodes(r: ClusterHealthResponse, check: ClusterHealth, formatDateTime: int -> string)
    requires IsResponseFor(r, check, formatDateTime)
    ensures |r.nodes| == |check.nodes|
    ensures forall i, j :: 0 <= i < j < |r.nodes| ==>
      TypeOrdinal(SortByType(check.nodes)[i].details.nodeType) <= TypeOrdinal(SortByType(check.nodes)[j].details.nodeType)
    ensures forall i :: 0 <= i < |r.nodes| ==>
      && SortByType(check.nodes)[i] in check.nodes
      && Text.ParseInt(r.nodes[i].port) == Some(SortByType(check.nodes)[i].details.port)
      && WsNodeTypeName(r.nodes[i].nodeType.value) == TypeName(SortByType(check.nodes)[i].details.nodeType)
    ensures forall t :: OfType(SortByType(check.nodes), t) == OfType(check.nodes, t)
  {
    var sorted := SortByType(check.nodes);
    SortByTypeIsStableSort(check.nodes);
    forall i | 0 <= i < |r.nodes|
      ensures sorted[i] in check.nodes
      ensures Text.ParseInt(r.nodes[i].port) == Some(sorted[i].details.port)
    {
      assert sorted[i] in multiset(sorted);
      Text.IntToStringRoundTrip(sorted[i].details.port);
    }
  }

  /** A SEARCH node's entry never carries a health or a cause; any other node's entry carries its own status and causes. */
  lemma SearchNodesHideHealth(r: ClusterHealthResponse, check: ClusterHealth, formatDateTime: int -> string, i: nat)
    requires IsResponseFor(r, check, formatDateTime)
    requires i < |r.nodes|
    ensures r.nodes[i].nodeType == Some(WsSearch) <==> SortByType(check.nodes)[i].details.nodeType == SEARCH
    ensures r.nodes[i].nodeType == Some(WsSearch) ==> r.nodes[i].health == None && r.nodes[i].causes == []
    ensures r.nodes[i].nodeType == Some(WsApplication) ==>
      WsHealthName(r.nodes[i].health.value) == StatusName(SortByType(check.nodes)[i].status)
    ensures r.nodes[i].nodeType == Some(WsApplication) ==>
      ListsEachOnce(r.nodes[i].causes, SortByType(check.nodes)[i].causes)
  {
  }
}
