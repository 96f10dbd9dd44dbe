/** The planner's search: every queue entry carries the whole path that led to it. */
module ChangePaths {
  import opened GraphSearch
  import BlastRadius

  datatype Path = Path(nodes: seq<Node>, edges: seq<Edge>, confidence: real) {
    predicate Shaped() { |nodes| == |edges| + 1 }

    function End(): Node
      requires Shaped()
    {
      nodes[|nodes| - 1]
    }

    function Extended(e: Edge): Path {
      Path(nodes + [e.dst], edges + [e], Min(confidence, e.confidence))
    }
  }

  /** A path over edges from a changed node, each of its nodes at the depth recorded for it. */
  ghost predicate Traced(edges: seq<Edge>, changed: set<Node>, depth: map<Node, nat>, p: Path) {
    && Along(edges, p.nodes, p.edges) && p.nodes[0] in changed && p.confidence == Least(p.edges)
    && forall i :: 0 <= i < |p.nodes| ==> p.nodes[i] in depth && depth[p.nodes[i]] == i
  }

  ghost predicate AllTraced(edges: seq<Edge>, changed: set<Node>, depth: map<Node, nat>, paths: seq<Path>) {
    forall i :: 0 <= i < |paths| ==> Traced(edges, changed, depth, paths[i])
  }

  ghost function Ends(edges: seq<Edge>, changed: set<Node>, depth: map<Node, nat>, paths: seq<Path>): (ns: seq<Node>)
    requires AllTraced(edges, changed, depth, paths)
    ensures |ns| == |paths| && forall i :: 0 <= i < |paths| ==> ns[i] == paths[i].nodes[|paths[i].nodes| - 1]
  {
    seq(|paths|, i requires 0 <= i < |paths| => paths[i].End())
  }

  ghost predicate EndIn(paths: seq<Path>, n: Node) {
    exists i :: 0 <= i < |paths| && paths[i].Shaped() && paths[i].End() == n
  }

  /** One path ends in each affected node. */
  ghost predicate OnePathEach(changed: set<Node>, depth: map<Node, nat>, affected: set<Node>, paths: seq<Path>) {
    && changed <= depth.Keys && affected == depth.Keys - changed
    && (forall i :: 0 <= i < |paths| ==> paths[i].Shaped() && paths[i].End() in affected)
    && (forall i, j :: 0 <= i < j < |paths| ==> paths[i].End() != paths[j].End())
    && forall n :: n in affected ==> EndIn(paths, n)
  }

  predicate Simple(p: Path) {
    forall i, j :: 0 <= i < j < |p.nodes| ==> p.nodes[i] != p.nodes[j]
  }

  /** What is reported about a path: it is simple, runs over edges from a changed node, is as short as
      any walk to its end, and has the confidence of its weakest edge. */
  ghost predicate Reported(edges: seq<Edge>, changed: set<Node>, limit: nat, p: Path) {
    && Along(edges, p.nodes, p.edges) && p.nodes[0] in changed && Simple(p)
    && |p.edges| <= limit && AtDistance(edges, changed, p.nodes[|p.nodes| - 1], |p.edges|)
    && p.confidence == Least(p.edges)
  }

  datatype Result = Result(affected: set<Node>, paths: seq<Path>, confidence: real)

  lemma StartTraced(edges: seq<Edge>, changed: set<Node>, depth: map<Node, nat>, n: Node)
    requires n in changed && n in depth && depth[n] == 0
    ensures Traced(edges, changed, depth, Path([n], [], 1.0))
  {
  }

  lemma DiscoveryKeepsTraces(edges: seq<Edge>, changed: set<Node>, depth: map<Node, nat>, paths: seq<Path>, m: Node, d: nat)
    requires AllTraced(edges, changed, depth, paths) && m !in depth
    ensures AllTraced(edges, changed, depth[m := d], paths)
  {
    hide Along, Least;
  }

  lemma ExtendedTraced(edges: seq<Edge>, changed: set<Node>, depth: map<Node, nat>, p: Path, e: Edge)
    requires Traced(edges, changed, depth, p) && e in edges && e.src == p.nodes[|p.nodes| - 1] && e.dst !in depth
    ensures Traced(edges, changed, depth[e.dst := |p.edges| + 1], p.Extended(e))
  {
    hide Min;
    assert p.Extended(e).edges[..|p.edges|] == p.edges;
  }

  lemma NewPathKeepsOneEach(changed: set<Node>, depth: map<Node, nat>, affected: set<Node>, paths: seq<Path>, p: Path, d: nat)
    requires OnePathEach(changed, depth, affected, paths) && p.Shaped() && p.End() !in depth
    ensures OnePathEach(changed, depth[p.End() := d], affected + {p.End()}, paths + [p])
  {
    var n, paths' := p.End(), paths + [p];
    forall m | m in affected + {n} ensures EndIn(paths', m) {
      if m == n {
        assert paths'[|paths|].End() == m;
      } else {
        var i :| 0 <= i < |paths| && paths[i].Shaped() && paths[i].End() == m;
        assert paths'[i].End() == m;
      }
    }
  }

  lemma TracedIsReported(edges: seq<Edge>, changed: set<Node>, limit: nat, depth: map<Node, nat>, p: Path)
    requires Traced(edges, changed, depth, p) && Searching(edges, changed, limit, depth, [])
    ensures Reported(edges, changed, limit, p)
  {
    SearchIsExact(edges, changed, limit, depth);
    hide Least;
    assert p.nodes[|p.nodes| - 1] in depth;
  }

  lemma NothingYet(changed: set<Node>, depth: map<Node, nat>)
    requires depth.Keys == changed
    ensures OnePathEach(changed, depth, {}, [])
  {
  }

  lemma TracedDepth(edges: seq<Edge>, changed: set<Node>, depth: map<Node, nat>, p: Path)
    requires Traced(edges, changed, depth, p)
    ensures p.Shaped() && p.End() in depth && depth[p.End()] == |p.edges|
    ensures forall n :: n in p.nodes ==> n in depth
  {
  }

  lemma ReportAll(edges: seq<Edge>, changed: set<Node>, limit: nat, depth: map<Node, nat>, affected: set<Node>, paths: seq<Path>)
    requires Searching(edges, changed, limit, depth, []) && AllTraced(edges, changed, depth, paths)
    requires OnePathEach(changed, depth, affected, paths)
    ensures affected == Within(edges, changed, limit) - changed
    ensures forall p :: p in paths ==> p.Shaped() && p.End() in affected && Reported(edges, changed, limit, p)
    ensures forall i, j :: 0 <= i < j < |paths| ==> paths[i].Shaped() && paths[j].Shaped() && paths[i].End() != paths[j].End()
    ensures forall n :: n in affected ==> EndIn(paths, n)
  {
    hide Searching, Within, Traced, Reported;
    SearchIsExact(edges, changed, limit, depth);
    forall p | p in paths ensures p.Shaped() && p.End() in affected && Reported(edges, changed, limit, p) {
      var i :| 0 <= i < |paths| && paths[i] == p;
      TracedIsReported(edges, changed, limit, depth, paths[i]);
    }
  }

  method LeastOf(paths: seq<Path>) returns (c: real)
    ensures forall p :: p in paths ==> c <= p.confidence
    ensures if paths == [] then c == 1.0 else exists p :: p in paths && c == p.confidence
  {
    if paths == [] { return 1.0; }
    c := paths[0].confidence;
    for i := 1 to |paths|
      invariant forall k :: 0 <= k < i ==> c <= paths[k].confidence
      invariant exists p :: p in paths && c == p.confidence
    {
      if paths[i].confidence < c {
        c := paths[i].confidence;
      }
    }
  }

  /** Follows the edges out of the end of one path. */
  method Expand(ghost edges: seq<Edge>, ghost changed: set<Node>, ghost maxDepth: nat, depth0: map<Node, nat>,
                affected0: set<Node>, paths0: seq<Path>, queue0: seq<Path>, p: Path, out: seq<Edge>)
      returns (depth: map<Node, nat>, affected: set<Node>, paths: seq<Path>, queue: seq<Path>)
    requires Traced(edges, changed, depth0, p) && p.Shaped() && out == Outgoing(edges, p.End())
    requires AllTraced(edges, changed, depth0, queue0) && AllTraced(edges, changed, depth0, paths0)
    requires Expanding(edges, changed, maxDepth, depth0, Ends(edges, changed, depth0, queue0), p.End(), 0)
    requires OnePathEach(changed, depth0, affected0, paths0)
    ensures AllTraced(edges, changed, depth, queue) && AllTraced(edges, changed, depth, paths)
    ensures Searching(edges, changed, maxDepth, depth, Ends(edges, changed, depth, queue))
    ensures OnePathEach(changed, depth, affected, paths)
    ensures Undiscovered(edges, depth) < Undiscovered(edges, depth0) || (depth == depth0 && queue == queue0)
  {
    hide Within, Expanding, Searching, Undiscovered, Outgoing, Traced, OnePathEach, Along, Least;
    depth, affected, paths, queue := depth0, affected0, paths0, queue0;
    for j := 0 to |out|
      invariant Traced(edges, changed, depth, p)
      invariant AllTraced(edges, changed, depth, queue) && AllTraced(edges, changed, depth, paths)
      invariant Expanding(edges, changed, maxDepth, depth, Ends(edges, changed, depth, queue), p.End(), j)
      invariant OnePathEach(changed, depth, affected, paths)
      invariant Undiscovered(edges, depth) < Undiscovered(edges, depth0) || (depth == depth0 && queue == queue0)
    {
      var e := out[j];
      assert e in out;
      ghost var ends := Ends(edges, changed, depth, queue);
      TracedDepth(edges, changed, depth, p);
      if e.dst in p.nodes {
        SearchSkips(edges, changed, maxDepth, depth, ends, p.End(), j);
        continue;
      }
      if e.dst in depth {
        SearchSkips(edges, changed, maxDepth, depth, ends, p.End(), j);
        if depth[e.dst] <= |p.edges| + 1 { continue; }
      }
      var next := p.Extended(e);
      SearchDiscovers(edges, changed, maxDepth, depth, ends, p.End(), j);
      DiscoveryShrinks(edges, depth, e, |p.edges| + 1);
      NewPath(edges, changed, depth, affected, paths, queue, p, e);
      depth := depth[e.dst := |p.edges| + 1];
      affected, paths, queue := affected + {e.dst}, paths + [next], queue + [next];
      assert Ends(edges, changed, depth, queue) == ends + [e.dst];
    }
    SearchFinishesNode(edges, changed, maxDepth, depth, Ends(edges, changed, depth, queue), p.End());
  }

  lemma NewPath(edges: seq<Edge>, changed: set<Node>, depth: map<Node, nat>, affected: set<Node>, paths: seq<Path>,
                queue: seq<Path>, p: Path, e: Edge)
    requires Traced(edges, changed, depth, p) && p.Shaped() && e in edges && e.src == p.End() && e.dst !in depth
    requires AllTraced(edges, changed, depth, queue) && AllTraced(edges, changed, depth, paths)
    requires OnePathEach(changed, depth, affected, paths)
    ensures var depth' := depth[e.dst := |p.edges| + 1]; var next := p.Extended(e);
      && Traced(edges, changed, depth', p) && next.Shaped() && next.End() == e.dst
      && AllTraced(edges, changed, depth', queue + [next]) && AllTraced(edges, changed, depth', paths + [next])
      && OnePathEach(changed, depth', affected + {e.dst}, paths + [next])
  {
    hide Along, Least, OnePathEach;
    var depth' := depth[e.dst := |p.edges| + 1];
    ExtendedTraced(edges, changed, depth, p, e);
    DiscoveryKeepsTraces(edges, changed, depth, queue, e.dst, |p.edges| + 1);
    DiscoveryKeepsTraces(edges, changed, depth, paths, e.dst, |p.edges| + 1);
    DiscoveryKeepsTraces(edges, changed, depth, [p], e.dst, |p.edges| + 1);
    assert [p][0] == p;
    NewPathKeepsOneEach(changed, depth, affected, paths, p.Extended(e), |p.edges| + 1);
    hide Traced;
  }

  /** The affected nodes are those within `maxDepth` hops of the changed ones, and each has exactly one
      reported path. */
  method ComputeBlastRadius(edges: seq<Edge>, changedIds: seq<Node>, maxDepth: nat) returns (r: Result)
    ensures var changed := set n | n in changedIds;
      && r.affected == Within(edges, changed, maxDepth) - changed
      && (forall p :: p in r.paths ==> p.Shaped() && p.End() in r.affected && Reported(edges, changed, maxDepth, p))
      && (forall i, j :: 0 <= i < j < |r.paths| ==> r.paths[i].End() != r.paths[j].End())
      && (forall n :: n in r.affected ==> EndIn(r.paths, n))
      && (forall p :: p in r.paths ==> r.confidence <= p.confidence)
      && (r.confidence == 1.0 || exists p :: p in r.paths && r.confidence == p.confidence)
  {
    hide Within, Searching, Expanding, AtDistance, Undiscovered, Outgoing, Traced, OnePathEach;
    ghost var changed := set n | n in changedIds;
    var outgoing := OutgoingEdges(edges);
    var depth: map<Node, nat> := map n | n in changedIds :: 0;
    var queue := seq(|changedIds|, i requires 0 <= i < |changedIds| => Path([changedIds[i]], [], 1.0));
    var affected, paths: seq<Path> := {}, [];
    forall i | 0 <= i < |queue| ensures Traced(edges, changed, depth, queue[i]) {
      StartTraced(edges, changed, depth, changedIds[i]);
    }
    assert Ends(edges, changed, depth, queue) == changedIds;
    SearchStarts(edges, changed, maxDepth, depth, changedIds);
    assert OnePathEach(changed, depth, affected, paths) by { NothingYet(changed, depth); }
    while queue != []
      invariant AllTraced(edges, changed, depth, queue) && AllTraced(edges, changed, depth, paths)
      invariant Searching(edges, changed, maxDepth, depth, Ends(edges, changed, depth, queue))
      invariant OnePathEach(changed, depth, affected, paths)
      decreases Undiscovered(edges, depth), |queue|
    {
      var p := queue[0];
      SearchPops(edges, changed, maxDepth, depth, Ends(edges, changed, depth, queue));
      assert Ends(edges, changed, depth, queue)[1..] == Ends(edges, changed, depth, queue[1..]);
      assert Traced(edges, changed, depth, p);
      TracedDepth(edges, changed, depth, p);
      queue := queue[1..];
      if |p.edges| >= maxDepth { continue; }
      depth, affected, paths, queue :=
        Expand(edges, changed, maxDepth, depth, affected, paths, queue, p, ListedAt(outgoing, p.nodes[|p.nodes| - 1]));
    }
    assert Ends(edges, changed, depth, queue) == [];
    SearchIsExact(edges, changed, maxDepth, depth);
    ReportAll(edges, changed, maxDepth, depth, affected, paths);
    var confidence := LeastOf(paths);
    r := Result(affected, paths, confidence);
  }

  /** Run on the reversed dependency edges, the planner's search agrees with the impact search: the node
      a reported path ends in has the path's length as its depth there. */
  lemma SearchesAgree(raw: seq<BlastRadius.GraphEdge>, targets: set<Node>, limit: nat, r: BlastRadius.Radius, p: Path)
    requires var edges := BlastRadius.Dependents(raw);
      && r.depth.Keys == Within(edges, targets, limit)
      && (forall n :: n in r.depth ==> AtDistance(edges, targets, n, r.depth[n]))
      && Reported(edges, targets, limit, p)
    ensures p.Shaped() && p.End() in r.depth && r.depth[p.End()] == |p.edges|
  {
    hide BlastRadius.Dependents, Within, Least;
    var edges := BlastRadius.Dependents(raw);
    WithinMonotone(edges, targets, |p.edges|, limit);
    assert AtDistance(edges, targets, p.End(), r.depth[p.End()]);
  }
}
