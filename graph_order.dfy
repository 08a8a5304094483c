/**
 * The graph orderer: turns a workflow's nodes and connections into the
 * sequence in which the nodes run.  The topological sort itself is done by
 * a sorting library, which this module takes as a parameter (`toposort`)
 * and describes by `ToposortContract`.
 */
module GraphOrder {
  import opened Wrappers
  import opened Strings
  import opened Workflow

  type Edge = (string, string)

  /** What the sorting library returns: node ids, or the error it threw
      (`isError` is false when the thrown value is not an `Error`). */
  datatype TopoResult = Sorted(ids: seq<string>) | Threw(isError: bool, message: string)

  /** A thrown value: whether it is an `Error`, and its message. */
  datatype SortError = Thrown(isError: bool, message: string)

  const CycleMessage := "Workflow contains a cycle"

  // ---------------------------------------------------------------------
  // Sequence helpers

  /** Position of the first occurrence of `x` in `s`, or `|s|` when absent. */
  function IndexOf(s: seq<string>, x: string): (r: nat)
    ensures r <= |s|
    ensures r < |s| <==> x in s
    ensures r < |s| ==> s[r] == x
    ensures forall i :: 0 <= i < r ==> s[i] != x
  {
    if s == [] then 0 else if s[0] == x then 0 else 1 + IndexOf(s[1..], x)
  }

  lemma {:induction false} IndexOfAppend(t: seq<string>, x: string, y: string)
    ensures y in t ==> IndexOf(t + [x], y) == IndexOf(t, y)
    ensures y !in t && y == x ==> IndexOf(t + [x], y) == |t|
  {
    if t != [] {
      assert (t + [x])[1..] == t[1..] + [x];
      IndexOfAppend(t[1..], x, y);
    } else {
      assert t + [x] == [x];
    }
  }

  ghost predicate Distinct(s: seq<string>) {
    forall i, j :: 0 <= i < j < |s| ==> s[i] != s[j]
  }

  function Ids(ns: seq<Node>): (r: seq<string>)
    ensures |r| == |ns|
    ensures forall i :: 0 <= i < |ns| ==> r[i] == ns[i].id
  {
    seq(|ns|, i requires 0 <= i < |ns| => ns[i].id)
  }

  ghost function NodeIds(nodes: seq<Node>): set<string> {
    set n | n in nodes :: n.id
  }

  // ---------------------------------------------------------------------
  // Edge building (the loops of the source)

  /** `connections.map((edge) => [edge.fromNodeID, edge.toNodeID])` */
  function ConnectionEdges(cs: seq<Connection>): seq<Edge> {
    seq(|cs|, k requires 0 <= k < |cs| => (cs[k].fromNodeID, cs[k].toNodeID))
  }

  /** The ids added to `connectedNodeIDs`: both endpoints of every connection. */
  function ConnectedIDs(cs: seq<Connection>): set<string> {
    if cs == [] then {}
    else ConnectedIDs(cs[..|cs| - 1]) + {cs[|cs| - 1].fromNodeID, cs[|cs| - 1].toNodeID}
  }

  /** The self-edges pushed for the nodes that no connection touches, in node order. */
  function IsolatedSelfEdges(nodes: seq<Node>, connected: set<string>): seq<Edge> {
    if nodes == [] then []
    else
      var n := nodes[|nodes| - 1];
      IsolatedSelfEdges(nodes[..|nodes| - 1], connected) + (if n.id !in connected then [(n.id, n.id)] else [])
  }

  /** The edge list handed to the sorting library. */
  function BuildEdges(nodes: seq<Node>, cs: seq<Connection>): seq<Edge> {
    ConnectionEdges(cs) + IsolatedSelfEdges(nodes, ConnectedIDs(cs))
  }

  /** The vertices an edge list mentions. */
  function Vertices(edges: seq<Edge>): set<string> {
    if edges == [] then {}
    else Vertices(edges[..|edges| - 1]) + {edges[|edges| - 1].0, edges[|edges| - 1].1}
  }

  lemma {:induction false} VerticesOf(edges: seq<Edge>, v: string)
    ensures v in Vertices(edges) <==> exists k :: 0 <= k < |edges| && (edges[k].0 == v || edges[k].1 == v)
  {
    if edges != [] {
      var t := edges[..|edges| - 1];
      VerticesOf(t, v);
      if v in Vertices(t) {
        var k :| 0 <= k < |t| && (t[k].0 == v || t[k].1 == v);
        assert edges[k] == t[k];
      }
      if exists k :: 0 <= k < |edges| && (edges[k].0 == v || edges[k].1 == v) {
        var k :| 0 <= k < |edges| && (edges[k].0 == v || edges[k].1 == v);
        if k < |t| {
          assert t[k] == edges[k];
        }
      }
    }
  }

  lemma {:induction false} ConnectedIDsOf(cs: seq<Connection>, v: string)
    ensures v in ConnectedIDs(cs) <==> exists k :: 0 <= k < |cs| && (cs[k].fromNodeID == v || cs[k].toNodeID == v)
  {
    if cs != [] {
      var t := cs[..|cs| - 1];
      ConnectedIDsOf(t, v);
      if v in ConnectedIDs(t) {
        var k :| 0 <= k < |t| && (t[k].fromNodeID == v || t[k].toNodeID == v);
        assert cs[k] == t[k];
      }
      if exists k :: 0 <= k < |cs| && (cs[k].fromNodeID == v || cs[k].toNodeID == v) {
        var k :| 0 <= k < |cs| && (cs[k].fromNodeID == v || cs[k].toNodeID == v);
        if k < |t| {
          assert t[k] == cs[k];
        }
      }
    }
  }

  /** Every self-edge added is a loop on an input node that no connection touches. */
  lemma {:induction false} IsolatedSelfEdgesOf(nodes: seq<Node>, connected: set<string>, e: Edge)
    ensures e in IsolatedSelfEdges(nodes, connected) <==>
              e.0 == e.1 && e.0 !in connected && exists n :: n in nodes && n.id == e.0
  {
    if nodes != [] {
      var t := nodes[..|nodes| - 1];
      var n := nodes[|nodes| - 1];
      IsolatedSelfEdgesOf(t, connected, e);
      assert nodes == t + [n];
      if exists m :: m in nodes && m.id == e.0 {
        var m :| m in nodes && m.id == e.0;
        if m != n {
          assert m in t;
        }
      }
    }
  }

  /** A node touches no connection exactly when it receives a self-edge, so every
      input node is a vertex of the edge list, and the only other vertices are
      connection endpoints. */
  lemma BuildEdgesVertices(nodes: seq<Node>, cs: seq<Connection>, v: string)
    ensures v in Vertices(BuildEdges(nodes, cs)) <==> v in ConnectedIDs(cs) || v in NodeIds(nodes)
  {
    var edges := BuildEdges(nodes, cs);
    var ce := ConnectionEdges(cs);
    var connected := ConnectedIDs(cs);
    VerticesOf(edges, v);
    ConnectedIDsOf(cs, v);
    if v in Vertices(edges) {
      var k :| 0 <= k < |edges| && (edges[k].0 == v || edges[k].1 == v);
      if k < |ce| {
        assert cs[k].fromNodeID == v || cs[k].toNodeID == v;
      } else {
        IsolatedSelfEdgesOf(nodes, connected, edges[k]);
      }
    }
    if v in connected {
      var k :| 0 <= k < |cs| && (cs[k].fromNodeID == v || cs[k].toNodeID == v);
      assert edges[k] == ce[k];
    } else if v in NodeIds(nodes) {
      var n :| n in nodes && n.id == v;
      IsolatedSelfEdgesOf(nodes, connected, (v, v));
      var k :| 0 <= k < |IsolatedSelfEdges(nodes, connected)| && IsolatedSelfEdges(nodes, connected)[k] == (v, v);
      assert edges[|ce| + k] == (v, v);
    }
  }

  /** The edges that are not self-edges are exactly connections. */
  lemma BuildEdgesNonSelf(nodes: seq<Node>, cs: seq<Connection>, e: Edge)
    requires e in BuildEdges(nodes, cs) && e.0 != e.1
    ensures e in ConnectionEdges(cs)
  {
    var ce := ConnectionEdges(cs);
    var iso := IsolatedSelfEdges(nodes, ConnectedIDs(cs));
    if e !in ce {
      assert e in iso;
      IsolatedSelfEdgesOf(nodes, ConnectedIDs(cs), e);
    }
  }

  // ---------------------------------------------------------------------
  // The sorting library's contract

  /** One step of a walk along an edge that is not a self-edge. */
  ghost predicate Step(edges: seq<Edge>, a: string, b: string) {
    a != b && (a, b) in edges
  }

  /** A closed walk of at least one step; self-edges do not count. */
  ghost predicate IsCycle(edges: seq<Edge>, p: seq<string>) {
    && |p| >= 2
    && p[0] == p[|p| - 1]
    && forall i :: 0 <= i < |p| - 1 ==> Step(edges, p[i], p[i + 1])
  }

  ghost predicate HasCycle(edges: seq<Edge>) {
    exists p :: IsCycle(edges, p)
  }

  /** `ids` covers exactly the mentioned vertices, and the first occurrence of
      the source of every edge that is not a self-edge comes before the first
      occurrence of its target. */
  ghost predicate SortsForward(edges: seq<Edge>, ids: seq<string>) {
    && (forall v :: v in ids <==> v in Vertices(edges))
    && forall k :: 0 <= k < |edges| && edges[k].0 != edges[k].1 ==>
         IndexOf(ids, edges[k].0) < IndexOf(ids, edges[k].1)
  }

  /** What the model assumes of the sorting library: it either throws on a
      cycle or returns an order.  An edge list without a cycle is sorted, and
      the answer goes forward along every edge; a cyclic edge list makes it
      throw an `Error` whose message includes "Cyclic".  ASSUMPTION: a
      self-edge is not a cycle, which is what the source relies on for
      isolated nodes. */
  ghost predicate ToposortContract(edges: seq<Edge>, r: TopoResult) {
    && (!HasCycle(edges) ==> r.Sorted?)
    && (r.Sorted? ==> SortsForward(edges, r.ids))
    && (HasCycle(edges) ==> r.Threw? && r.isError && Includes(r.message, "Cyclic"))
  }

  lemma StepForward(edges: seq<Edge>, ids: seq<string>, a: string, b: string)
    requires SortsForward(edges, ids) && Step(edges, a, b)
    ensures IndexOf(ids, a) < IndexOf(ids, b)
  {
    var k :| 0 <= k < |edges| && edges[k] == (a, b);
  }

  lemma {:induction false} WalkForward(edges: seq<Edge>, ids: seq<string>, p: seq<string>, k: nat)
    requires SortsForward(edges, ids) && IsCycle(edges, p)
    requires 1 <= k < |p|
    ensures IndexOf(ids, p[0]) < IndexOf(ids, p[k])
  {
    StepForward(edges, ids, p[k - 1], p[k]);
    if k > 1 {
      WalkForward(edges, ids, p, k - 1);
    }
  }

  /** The contract is consistent: an edge list that some order sorts forward has no cycle. */
  lemma NoCycleWhenSorted(edges: seq<Edge>, ids: seq<string>)
    requires SortsForward(edges, ids)
    ensures !HasCycle(edges)
  {
    if HasCycle(edges) {
      var p :| IsCycle(edges, p);
      WalkForward(edges, ids, p, |p| - 1);
      assert false;
    }
  }

  /** A cycle among the connections is a cycle of the edge list handed to the library. */
  lemma ConnectionCycleIsEdgeCycle(nodes: seq<Node>, cs: seq<Connection>, p: seq<string>)
    requires IsCycle(ConnectionEdges(cs), p)
    ensures IsCycle(BuildEdges(nodes, cs), p)
  {
    var ce := ConnectionEdges(cs);
    var edges := BuildEdges(nodes, cs);
    forall i | 0 <= i < |p| - 1
      ensures Step(edges, p[i], p[i + 1])
    {
      assert Step(ce, p[i], p[i + 1]);
      var k :| 0 <= k < |ce| && ce[k] == (p[i], p[i + 1]);
      assert edges[k] == ce[k];
    }
  }

  /** The self-edges added for isolated nodes close no cycle: every cycle of
      the edge list handed to the library is a cycle among the connections. */
  lemma EdgeCycleIsConnectionCycle(nodes: seq<Node>, cs: seq<Connection>, p: seq<string>)
    requires IsCycle(BuildEdges(nodes, cs), p)
    ensures IsCycle(ConnectionEdges(cs), p)
  {
    var ce := ConnectionEdges(cs);
    forall i | 0 <= i < |p| - 1
      ensures Step(ce, p[i], p[i + 1])
    {
      assert Step(BuildEdges(nodes, cs), p[i], p[i + 1]);
      BuildEdgesNonSelf(nodes, cs, (p[i], p[i + 1]));
    }
  }

  /** The edge list handed to the library has a cycle exactly when the connections do. */
  lemma BuildEdgesCycles(nodes: seq<Node>, cs: seq<Connection>)
    ensures HasCycle(BuildEdges(nodes, cs)) <==> HasCycle(ConnectionEdges(cs))
  {
    if HasCycle(BuildEdges(nodes, cs)) {
      var p :| IsCycle(BuildEdges(nodes, cs), p);
      EdgeCycleIsConnectionCycle(nodes, cs, p);
    }
    if HasCycle(ConnectionEdges(cs)) {
      var p :| IsCycle(ConnectionEdges(cs), p);
      ConnectionCycleIsEdgeCycle(nodes, cs, p);
    }
  }

  // ---------------------------------------------------------------------
  // De-duplication: `[...new Set(sortedNodeIDs)]`

  /** Keeps the first occurrence of every id, in order. */
  function Dedup(s: seq<string>): (d: seq<string>)
    ensures forall x :: x in d <==> x in s
  {
    if s == [] then []
    else
      var d := Dedup(s[..|s| - 1]);
      var x := s[|s| - 1];
      if x in d then d else d + [x]
  }

  /** No id is repeated, and the ids appear in the order of their first
      occurrences in the input. */
  lemma {:induction false} DedupFirstOccurrences(s: seq<string>)
    ensures Distinct(Dedup(s))
    ensures forall i, j :: 0 <= i < j < |Dedup(s)| ==> IndexOf(s, Dedup(s)[i]) < IndexOf(s, Dedup(s)[j])
  {
    if s != [] {
      var t := s[..|s| - 1];
      var x := s[|s| - 1];
      assert s == t + [x];
      DedupFirstOccurrences(t);
      var d := Dedup(t);
      forall y | y in t
        ensures IndexOf(s, y) == IndexOf(t, y)
      {
        IndexOfAppend(t, x, y);
      }
      if x !in d {
        IndexOfAppend(t, x, x);
        assert IndexOf(s, x) == |t|;
        forall i | 0 <= i < |d|
          ensures IndexOf(s, d[i]) < IndexOf(s, x)
        {
          assert d[i] in t;
        }
        assert Dedup(s) == d + [x];
      }
    }
  }

  /** The relative order of first occurrences survives de-duplication. */
  lemma DedupKeepsOrder(s: seq<string>, a: string, b: string)
    requires a in s && b in s && IndexOf(s, a) < IndexOf(s, b)
    ensures IndexOf(Dedup(s), a) < IndexOf(Dedup(s), b) < |Dedup(s)|
  {
    DedupFirstOccurrences(s);
  }

  // ---------------------------------------------------------------------
  // Mapping ids back to nodes

  /** `new Map(nodes.map((n) => [n.id, n]))`: a later node with the same id wins. */
  function NodeMap(nodes: seq<Node>): (m: map<string, Node>)
    ensures m.Keys == NodeIds(nodes)
    ensures forall id :: id in m ==> m[id].id == id && m[id] in nodes
  {
    if nodes == [] then map[]
    else
      var n := nodes[|nodes| - 1];
      var t := nodes[..|nodes| - 1];
      assert nodes == t + [n];
      NodeMap(t)[n.id := n]
  }

  /** `sortedNodeIDs.map((id) => nodeMap.get(id)!).filter(Boolean)`: ids with
      no node are dropped. */
  function Resolve(ids: seq<string>, m: map<string, Node>): seq<Node>
  {
    if ids == [] then []
    else (if ids[0] in m then [m[ids[0]]] else []) + Resolve(ids[1..], m)
  }

  /** `ids` with only the members of `keep`, in order. */
  function Filter(ids: seq<string>, keep: set<string>): (r: seq<string>)
    ensures forall x :: x in r <==> x in ids && x in keep
  {
    if ids == [] then []
    else (if ids[0] in keep then [ids[0]] else []) + Filter(ids[1..], keep)
  }

  lemma {:induction false} ResolveIds(ids: seq<string>, m: map<string, Node>)
    requires forall id :: id in m ==> m[id].id == id
    ensures Ids(Resolve(ids, m)) == Filter(ids, m.Keys)
    ensures forall k :: 0 <= k < |Resolve(ids, m)| ==> Resolve(ids, m)[k] in m.Values
  {
    if ids != [] {
      ResolveIds(ids[1..], m);
    }
  }

  lemma {:induction false} FilterDistinct(ids: seq<string>, keep: set<string>)
    requires Distinct(ids)
    ensures Distinct(Filter(ids, keep))
  {
    if ids != [] {
      FilterDistinct(ids[1..], keep);
      var rest := Filter(ids[1..], keep);
      assert ids[0] !in ids[1..];
      assert ids[0] !in rest;
    }
  }

  lemma {:induction false} FilterKeepsOrder(ids: seq<string>, keep: set<string>, a: string, b: string)
    requires a in keep && b in keep && b in ids && IndexOf(ids, a) < IndexOf(ids, b)
    ensures IndexOf(Filter(ids, keep), a) < IndexOf(Filter(ids, keep), b) < |Filter(ids, keep)|
  {
    var f := Filter(ids, keep);
    var rest := Filter(ids[1..], keep);
    assert a != b;
    assert b in f;
    if ids[0] == a {
      assert f == [a] + rest;
      assert IndexOf(f, a) == 0;
    } else {
      assert ids[0] != b;
      assert IndexOf(ids, a) == 1 + IndexOf(ids[1..], a);
      assert IndexOf(ids, b) == 1 + IndexOf(ids[1..], b);
      FilterKeepsOrder(ids[1..], keep, a, b);
      if ids[0] in keep {
        assert f == [ids[0]] + rest;
        assert IndexOf(f, a) == 1 + IndexOf(rest, a);
        assert IndexOf(f, b) == 1 + IndexOf(rest, b);
      } else {
        assert f == rest;
      }
    }
  }

  // ---------------------------------------------------------------------
  // The sort

  /** The value `topologicalSort` returns or throws, given what the library answered. */
  function SortOutcome(nodes: seq<Node>, cs: seq<Connection>, r: TopoResult): Result<seq<Node>, SortError> {
    if |cs| == 0 then Ok(nodes)
    else
      match r
      case Sorted(ids) => Ok(Resolve(Dedup(ids), NodeMap(nodes)))
      case Threw(isError, message) =>
        if isError && Includes(message, "Cyclic") then Err(Thrown(true, CycleMessage))
        else Err(Thrown(isError, message))
  }

  /** `topologicalSort(nodes, connections)`, with the sorting library passed in. */
  method TopologicalSort(nodes: seq<Node>, connections: seq<Connection>, toposort: seq<Edge> -> TopoResult)
    returns (r: Result<seq<Node>, SortError>)
    ensures r == SortOutcome(nodes, connections, toposort(BuildEdges(nodes, connections)))
  {
    if |connections| == 0 {
      return Ok(nodes);
    }

    var edges: seq<Edge> := [];
    for i := 0 to |connections|
      invariant edges == ConnectionEdges(connections[..i])
    {
      edges := edges + [(connections[i].fromNodeID, connections[i].toNodeID)];
    }
    assert connections[..|connections|] == connections;

    var connectedNodeIDs: set<string> := {};
    for i := 0 to |connections|
      invariant connectedNodeIDs == ConnectedIDs(connections[..i])
    {
      assert connections[..i + 1][..i] == connections[..i];
      connectedNodeIDs := connectedNodeIDs + {connections[i].fromNodeID, connections[i].toNodeID};
    }

    for i := 0 to |nodes|
      invariant edges == ConnectionEdges(connections) + IsolatedSelfEdges(nodes[..i], connectedNodeIDs)
    {
      assert nodes[..i + 1][..i] == nodes[..i];
      if nodes[i].id !in connectedNodeIDs {
        edges := edges + [(nodes[i].id, nodes[i].id)];
      }
    }
    assert nodes[..|nodes|] == nodes;

    var answer := toposort(edges);
    match answer {
      case Threw(isError, message) =>
        if isError && Includes(message, "Cyclic") {
          return Err(Thrown(true, CycleMessage));
        }
        return Err(Thrown(isError, message));
      case Sorted(ids) =>
        var sortedNodeIDs: seq<string> := [];
        for i := 0 to |ids|
          invariant sortedNodeIDs == Dedup(ids[..i])
        {
          assert ids[..i + 1][..i] == ids[..i];
          if ids[i] !in sortedNodeIDs {
            sortedNodeIDs := sortedNodeIDs + [ids[i]];
          }
        }
        assert ids[..|ids|] == ids;
        return Ok(Resolve(sortedNodeIDs, NodeMap(nodes)));
    }
  }

  // ---------------------------------------------------------------------
  // What the sort promises

  /** Whatever the library answers, every node in a sorted result is an input
      node, namely the one the id map holds for its id. */
  lemma {:induction false} ResultNodesAreInputNodes(nodes: seq<Node>, cs: seq<Connection>, ids: seq<string>)
    requires |cs| > 0
    ensures var out := SortOutcome(nodes, cs, Sorted(ids)).value;
      forall k :: 0 <= k < |out| ==> out[k] in nodes && out[k] == NodeMap(nodes)[out[k].id]
  {
    var m := NodeMap(nodes);
    ResolveIds(Dedup(ids), m);
    var out := Resolve(Dedup(ids), m);
    forall k | 0 <= k < |out|
      ensures out[k] in nodes && out[k] == m[out[k].id]
    {
      assert out[k] in m.Values;
    }
  }

  /** Under the library's contract, a sorted result lists every input node id
      exactly once, drops the ids that have no node, and puts the source of
      every connection between two input nodes before its target. */
  lemma SortedResultOrdersNodes(nodes: seq<Node>, cs: seq<Connection>, ids: seq<string>)
    requires |cs| > 0
    requires ToposortContract(BuildEdges(nodes, cs), Sorted(ids))
    ensures var out := Ids(SortOutcome(nodes, cs, Sorted(ids)).value);
      && (forall n :: n in nodes ==> n.id in out)
      && (forall x :: x in out ==> x in NodeIds(nodes))
      && Distinct(out)
      && forall c :: c in cs && c.fromNodeID != c.toNodeID && c.fromNodeID in NodeIds(nodes) && c.toNodeID in NodeIds(nodes)
           ==> IndexOf(out, c.fromNodeID) < IndexOf(out, c.toNodeID) < |out|
  {
    var edges := BuildEdges(nodes, cs);
    var m := NodeMap(nodes);
    var d := Dedup(ids);
    ResolveIds(d, m);
    var out := Filter(d, m.Keys);
    assert Ids(SortOutcome(nodes, cs, Sorted(ids)).value) == out;
    forall n | n in nodes
      ensures n.id in out
    {
      BuildEdgesVertices(nodes, cs, n.id);
    }
    DedupFirstOccurrences(ids);
    FilterDistinct(d, m.Keys);
    forall c | c in cs && c.fromNodeID != c.toNodeID && c.fromNodeID in NodeIds(nodes) && c.toNodeID in NodeIds(nodes)
      ensures IndexOf(out, c.fromNodeID) < IndexOf(out, c.toNodeID) < |out|
    {
      var k :| 0 <= k < |cs| && cs[k] == c;
      assert edges[k] == (c.fromNodeID, c.toNodeID);
      BuildEdgesVertices(nodes, cs, c.toNodeID);
      BuildEdgesVertices(nodes, cs, c.fromNodeID);
      DedupKeepsOrder(ids, c.fromNodeID, c.toNodeID);
      FilterKeepsOrder(d, m.Keys, c.fromNodeID, c.toNodeID);
    }
  }

  /** Under the library's contract, the sort ends with "Workflow contains a
      cycle" exactly when the connections have a cycle. */
  lemma CycleIsReported(nodes: seq<Node>, cs: seq<Connection>, r: TopoResult)
    requires |cs| > 0
    requires ToposortContract(BuildEdges(nodes, cs), r)
    ensures SortOutcome(nodes, cs, r) == Err(Thrown(true, CycleMessage)) <==> HasCycle(ConnectionEdges(cs))
  {
    BuildEdgesCycles(nodes, cs);
  }

  /** Under the library's contract, connections without a cycle always sort:
      the result lists every input node once, only input nodes, and orders
      every connection between input nodes. */
  lemma AcyclicConnectionsSort(nodes: seq<Node>, cs: seq<Connection>, r: TopoResult)
    requires |cs| > 0
    requires ToposortContract(BuildEdges(nodes, cs), r)
    requires !HasCycle(ConnectionEdges(cs))
    ensures SortOutcome(nodes, cs, r).Ok?
    ensures var out := Ids(SortOutcome(nodes, cs, r).value);
      && (forall n :: n in nodes ==> n.id in out)
      && (forall x :: x in out ==> x in NodeIds(nodes))
      && Distinct(out)
      && forall c :: c in cs && c.fromNodeID != c.toNodeID && c.fromNodeID in NodeIds(nodes) && c.toNodeID in NodeIds(nodes)
           ==> IndexOf(out, c.fromNodeID) < IndexOf(out, c.toNodeID) < |out|
  {
    BuildEdgesCycles(nodes, cs);
    SortedResultOrdersNodes(nodes, cs, r.ids);
  }

  /** Without connections the library is not consulted: the node list comes
      back as it was, whatever the library would have answered. */
  lemma NoConnectionsUnchanged(nodes: seq<Node>, r: TopoResult)
    ensures SortOutcome(nodes, [], r) == Ok(nodes)
  {
  }

  /** Only an `Error` whose message mentions "Cyclic" becomes the cycle error;
      any other failure of the library is re-thrown unchanged. */
  lemma FailureMapping(nodes: seq<Node>, cs: seq<Connection>, isError: bool, message: string)
    requires |cs| > 0
    ensures var out := SortOutcome(nodes, cs, Threw(isError, message));
      && (isError && Includes(message, "Cyclic") ==> out == Err(Thrown(true, CycleMessage)))
      && (!(isError && Includes(message, "Cyclic")) ==> out == Err(Thrown(isError, message)))
  {
  }

  /** A library that, unlike `ToposortContract`, counts a self-edge as a cycle. */
  ghost predicate RejectsSelfEdges(edges: seq<Edge>, r: TopoResult) {
    (exists e :: e in edges && e.0 == e.1) ==> r.Threw? && r.isError && Includes(r.message, "Cyclic")
  }

  /** With such a library, any workflow with a connection and a node no
      connection touches ends with "Workflow contains a cycle". */
  lemma IsolatedNodeUnderStrictLibrary(nodes: seq<Node>, cs: seq<Connection>, n: Node, r: TopoResult)
    requires |cs| > 0 && n in nodes && n.id !in ConnectedIDs(cs)
    requires RejectsSelfEdges(BuildEdges(nodes, cs), r)
    ensures SortOutcome(nodes, cs, r) == Err(Thrown(true, CycleMessage))
  {
    var e := (n.id, n.id);
    IsolatedSelfEdgesOf(nodes, ConnectedIDs(cs), e);
    assert e in BuildEdges(nodes, cs);
  }

  /** A distinct sequence drawn from a set is no longer than the set. */
  lemma {:induction false} DistinctWithin(s: seq<string>, pool: set<string>)
    requires Distinct(s) && forall i :: 0 <= i < |s| ==> s[i] in pool
    ensures |s| <= |pool|
  {
    if s != [] {
      var rest := s[1..];
      assert forall i :: 0 <= i < |rest| ==> rest[i] != s[0];
      DistinctWithin(rest, pool - {s[0]});
    }
  }

  /** A distinct list of "A", "B" and "C" holding all three in that order is exactly that list. */
  lemma ThreeInOrder(o: seq<string>)
    requires Distinct(o) && forall i :: 0 <= i < |o| ==> o[i] in {"A", "B", "C"}
    requires IndexOf(o, "A") < IndexOf(o, "B") < IndexOf(o, "C") < |o|
    ensures o == ["A", "B", "C"]
  {
    DistinctWithin(o, {"A", "B", "C"});
    assert |{"A", "B", "C"}| == 3;
  }

  /** The chain's sorted ids put A before B before C. */
  lemma ChainIndices(nodes: seq<Node>, cs: seq<Connection>, ids: seq<string>)
    requires |nodes| == 3 && nodes[0].id == "A" && nodes[1].id == "B" && nodes[2].id == "C"
    requires |cs| == 2 && cs[0] == Connection("A", "B") && cs[1] == Connection("B", "C")
    requires ToposortContract(BuildEdges(nodes, cs), Sorted(ids))
    ensures var o := Ids(SortOutcome(nodes, cs, Sorted(ids)).value);
      IndexOf(o, "A") < IndexOf(o, "B") < IndexOf(o, "C") < |o|
  {
    assert NodeIds(nodes) == {"A", "B", "C"} by {
      assert nodes[0] in nodes && nodes[1] in nodes && nodes[2] in nodes;
    }
    SortedResultOrdersNodes(nodes, cs, ids);
    assert cs[0] in cs && cs[1] in cs;
  }

  /** The chain's sorted ids are distinct and drawn from A, B and C. */
  lemma ChainMembers(nodes: seq<Node>, cs: seq<Connection>, ids: seq<string>)
    requires |nodes| == 3 && nodes[0].id == "A" && nodes[1].id == "B" && nodes[2].id == "C"
    requires |cs| == 2 && cs[0] == Connection("A", "B") && cs[1] == Connection("B", "C")
    requires ToposortContract(BuildEdges(nodes, cs), Sorted(ids))
    ensures var o := Ids(SortOutcome(nodes, cs, Sorted(ids)).value);
      Distinct(o) && forall i :: 0 <= i < |o| ==> o[i] in {"A", "B", "C"}
  {
    assert NodeIds(nodes) == {"A", "B", "C"} by {
      assert nodes[0] in nodes && nodes[1] in nodes && nodes[2] in nodes;
    }
    SortedResultOrdersNodes(nodes, cs, ids);
    var o := Ids(SortOutcome(nodes, cs, Sorted(ids)).value);
    forall i | 0 <= i < |o|
      ensures o[i] in {"A", "B", "C"}
    {
      assert o[i] in o;
    }
  }

  /** In a chain A -> B -> C of three nodes, the sorted ids are exactly A, B, C. */
  lemma ChainIds(nodes: seq<Node>, cs: seq<Connection>, ids: seq<string>)
    requires |nodes| == 3 && nodes[0].id == "A" && nodes[1].id == "B" && nodes[2].id == "C"
    requires |cs| == 2 && cs[0] == Connection("A", "B") && cs[1] == Connection("B", "C")
    requires ToposortContract(BuildEdges(nodes, cs), Sorted(ids))
    ensures Ids(SortOutcome(nodes, cs, Sorted(ids)).value) == ["A", "B", "C"]
  {
    ChainIndices(nodes, cs, ids);
    ChainMembers(nodes, cs, ids);
    ThreeInOrder(Ids(SortOutcome(nodes, cs, Sorted(ids)).value));
  }

  /** Three nodes in a chain A -> B -> C come out exactly in that order. */
  lemma ChainOrder(nodes: seq<Node>, cs: seq<Connection>, ids: seq<string>)
    requires |nodes| == 3 && nodes[0].id == "A" && nodes[1].id == "B" && nodes[2].id == "C"
    requires |cs| == 2 && cs[0] == Connection("A", "B") && cs[1] == Connection("B", "C")
    requires ToposortContract(BuildEdges(nodes, cs), Sorted(ids))
    ensures SortOutcome(nodes, cs, Sorted(ids)) == Ok(nodes)
  {
    var out := SortOutcome(nodes, cs, Sorted(ids)).value;
    ChainIds(nodes, cs, ids);
    ResultNodesAreInputNodes(nodes, cs, ids);
    var m := NodeMap(nodes);
    assert m["C"] == nodes[2] && m["B"] == NodeMap(nodes[..2])["B"] && m["A"] == NodeMap(nodes[..2])["A"];
    assert nodes[..2][..1] == nodes[..1];
    assert NodeMap(nodes[..2])["B"] == nodes[1] && NodeMap(nodes[..2])["A"] == NodeMap(nodes[..1])["A"];
    assert NodeMap(nodes[..1])["A"] == nodes[0] by {
      assert nodes[..1][..0] == [];
    }
    assert out[0] == m["A"] && out[1] == m["B"] && out[2] == m["C"];
    assert out == nodes;
  }
}
