/** What a change can reach: the reverse-dependency search with its parent map, and the chain rebuilt
    from that map. */
module BlastRadius {
  import opened GraphSearch

  const DEPENDENCY_KINDS: set<string> := {"imports", "depends_on", "calls", "flows_into", "correlates_with"}

  datatype Option<T> = None | Some(value: T)

  datatype GraphEdge = GraphEdge(id: nat, source: Node, target: Node, kind: string, confidence: real, strength: Option<real>) {
    /** A co-change edge propagates its coupling strength, if it has one; any other edge its confidence. */
    function Carried(): real {
      if kind == "correlates_with" && strength.Some? then strength.value else confidence
    }

    function Reversed(): Edge {
      Edge(id, target, source, Carried())
    }
  }

  /** The dependency edges, each turned around: from what is depended on to what depends on it. */
  function Dependents(raw: seq<GraphEdge>): (es: seq<Edge>)
    ensures forall e :: e in es <==> exists g :: g in raw && g.kind in DEPENDENCY_KINDS && e == g.Reversed()
  {
    if raw == [] then []
    else
      var g := raw[|raw| - 1];
      Dependents(raw[..|raw| - 1]) + if g.kind in DEPENDENCY_KINDS then [g.Reversed()] else []
  }

  /** Whoever imports, calls, depends on, feeds or changes with something depends on it, as surely as its edge
      says: a co-change by its coupling strength if that was measured, anything else by its confidence. */
  lemma DependentsIff(raw: seq<GraphEdge>, e: Edge)
    ensures e in Dependents(raw) <==> exists g ::
      && g in raw
      && (g.kind == "imports" || g.kind == "depends_on" || g.kind == "calls" || g.kind == "flows_into" || g.kind == "correlates_with")
      && e.id == g.id && e.src == g.target && e.dst == g.source
      && e.confidence == if g.kind == "correlates_with" && g.strength.Some? then g.strength.value else g.confidence
  {
  }

  lemma NoEdges()
    ensures Adjacency([], map[])
  {
  }

  method DependentsByNode(raw: seq<GraphEdge>) returns (dependents: map<Node, seq<Edge>>)
    ensures Adjacency(Dependents(raw), dependents)
  {
    hide Adjacency;
    dependents := map[];
    assert Adjacency([], dependents) by { NoEdges(); }
    for i := 0 to |raw|
      invariant Adjacency(Dependents(raw[..i]), dependents)
    {
      var g := raw[i];
      assert raw[..i + 1][..i] == raw[..i] && raw[..i + 1][i] == g;
      assert Dependents(raw[..i + 1]) == Dependents(raw[..i]) + if g.kind in DEPENDENCY_KINDS then [g.Reversed()] else [];
      assert g.kind !in DEPENDENCY_KINDS ==> Dependents(raw[..i + 1]) == Dependents(raw[..i]);
      if g.kind in DEPENDENCY_KINDS {
        var e := g.Reversed();
        AdjacencyGrows(Dependents(raw[..i]), dependents, e);
        dependents := dependents[e.src := ListedAt(dependents, e.src) + [e]];
      }
    }
    assert raw[..|raw|] == raw;
  }

  datatype Radius = Radius(affected: set<Node>, parent: map<Node, Node>, depth: map<Node, nat>, confidence: map<Node, real>)

  function ConfidenceAt(r: Radius, n: Node): real {
    if n in r.confidence then r.confidence[n] else 1.0
  }

  /** `n` was reached over an edge from its parent, one level up, and carries the lesser confidence. */
  ghost predicate Descends(edges: seq<Edge>, r: Radius, n: Node) {
    && n in r.parent && n in r.confidence && n in r.depth && r.parent[n] in r.depth && r.confidence[n] <= 1.0
    && r.depth[n] == r.depth[r.parent[n]] + 1
    && exists e :: e in edges && e.src == r.parent[n] && e.dst == n
         && r.confidence[n] == Min(ConfidenceAt(r, r.parent[n]), e.confidence)
  }

  /** The maps describe a forest over the visited nodes, rooted in the targets. */
  ghost predicate Forest(edges: seq<Edge>, targets: set<Node>, r: Radius) {
    && targets <= r.depth.Keys && (forall n :: n in targets ==> r.depth[n] == 0)
    && r.affected == r.depth.Keys - targets
    && r.parent.Keys == r.affected && r.confidence.Keys == r.affected
    && forall n :: n in r.affected ==> Descends(edges, r, n)
  }

  ghost predicate Carries(r: Radius, queue: seq<Visit<real>>) {
    forall v :: v in queue ==> v.node in r.depth && v.depth == r.depth[v.node] && v.carried == ConfidenceAt(r, v.node)
  }

  function Reached(r: Radius, n: Node, e: Edge, depth: nat, confidence: real): Radius {
    Radius(r.affected + {e.dst}, r.parent[e.dst := n], r.depth[e.dst := depth + 1],
           r.confidence[e.dst := Min(confidence, e.confidence)])
  }

  lemma ConfidenceAtMostOne(edges: seq<Edge>, targets: set<Node>, r: Radius, n: Node)
    requires Forest(edges, targets, r)
    ensures ConfidenceAt(r, n) <= 1.0
  {
    assert n in r.confidence ==> Descends(edges, r, n);
  }

  lemma DescendsKept(edges: seq<Edge>, r: Radius, r': Radius, m: Node)
    requires Descends(edges, r, m)
    requires m in r'.parent && m in r'.confidence && r.depth.Keys <= r'.depth.Keys
    requires r'.parent[m] == r.parent[m] && r'.confidence[m] == r.confidence[m]
    requires forall x :: x in r.depth ==> r'.depth[x] == r.depth[x]
    requires ConfidenceAt(r', r.parent[m]) == ConfidenceAt(r, r.parent[m])
    ensures Descends(edges, r', m)
  {
    hide ConfidenceAt, Min;
  }

  lemma AllDescend(edges: seq<Edge>, targets: set<Node>, r: Radius, n: Node, e: Edge, m: Node)
    requires Forest(edges, targets, r) && n in r.depth && e in edges && e.src == n && e.dst !in r.depth
    requires m in r.affected || m == e.dst
    ensures Descends(edges, Reached(r, n, e, r.depth[n], ConfidenceAt(r, n)), m)
  {
    hide Min;
    var r' := Reached(r, n, e, r.depth[n], ConfidenceAt(r, n));
    if m == e.dst {
      ConfidenceAtMostOne(edges, targets, r, n);
      MinAtMost(ConfidenceAt(r, n), e.confidence);
      assert ConfidenceAt(r', n) == ConfidenceAt(r, n);
    } else {
      assert Descends(edges, r, m);
      assert ConfidenceAt(r', r.parent[m]) == ConfidenceAt(r, r.parent[m]);
      DescendsKept(edges, r, r', m);
    }
  }

  lemma ReachedKeepsForest(edges: seq<Edge>, targets: set<Node>, r: Radius, n: Node, e: Edge)
    requires Forest(edges, targets, r) && n in r.depth && e in edges && e.src == n && e.dst !in r.depth
    ensures Forest(edges, targets, Reached(r, n, e, r.depth[n], ConfidenceAt(r, n)))
  {
    hide Min, Descends, ConfidenceAt;
    var r' := Reached(r, n, e, r.depth[n], ConfidenceAt(r, n));
    forall m | m in r'.affected ensures Descends(edges, r', m) {
      AllDescend(edges, targets, r, n, e, m);
    }
    assert r'.affected == r.affected + {e.dst} && r'.depth.Keys == r.depth.Keys + {e.dst};
    assert e.dst !in targets;
  }

  predicate NoRepeats(ns: seq<Node>) {
    forall i, j :: 0 <= i < j < |ns| ==> ns[i] != ns[j]
  }

  /** `visits` lists every node ever put in the queue: each recorded node, once. */
  ghost predicate EachOnce(visits: seq<Node>, depth: map<Node, nat>) {
    NoRepeats(visits) && forall n :: n in visits <==> n in depth
  }

  lemma NewIsNoRepeat(ns: seq<Node>, n: Node)
    requires NoRepeats(ns) && n !in ns
    ensures NoRepeats(ns + [n])
  {
    assert forall i :: 0 <= i < |ns| ==> ns[i] in ns;
  }

  lemma OneMoreVisit(visits: seq<Node>, depth: map<Node, nat>, n: Node, d: nat)
    requires EachOnce(visits, depth) && n !in depth
    ensures EachOnce(visits + [n], depth[n := d])
  {
    NewIsNoRepeat(visits, n);
  }

  method Listed(nodes: set<Node>) returns (queue: seq<Visit<real>>)
    ensures NoRepeats(Nodes(queue)) && forall n :: n in Nodes(queue) <==> n in nodes
    ensures forall v :: v in queue ==> v == Visit(v.node, 0, 1.0)
  {
    queue := [];
    var rest := nodes;
    while rest != {}
      invariant rest <= nodes && NoRepeats(Nodes(queue)) && forall n :: n in Nodes(queue) <==> n in nodes - rest
      invariant forall v :: v in queue ==> v == Visit(v.node, 0, 1.0)
      decreases |rest|
    {
      var n :| n in rest;
      assert Nodes(queue + [Visit(n, 0, 1.0)]) == Nodes(queue) + [n];
      NewIsNoRepeat(Nodes(queue), n);
      queue := queue + [Visit(n, 0, 1.0)];
      rest := rest - {n};
    }
  }

  lemma StartsOnce(visits: seq<Node>, depth: map<Node, nat>)
    requires NoRepeats(visits) && forall n :: n in visits <==> n in depth
    ensures EachOnce(visits, depth)
  {
  }

  lemma StartsAsForest(edges: seq<Edge>, targets: set<Node>, r: Radius)
    requires r == Radius({}, map[], map n | n in targets :: 0, map[])
    ensures Forest(edges, targets, r)
  {
  }

  /** Follows the edges out of one visited node. */
  method Expand(ghost edges: seq<Edge>, targets: set<Node>, ghost maxDepth: nat, r0: Radius, queue0: seq<Visit<real>>, v: Visit<real>,
                out: seq<Edge>, ghost visits0: seq<Node>) returns (r: Radius, queue: seq<Visit<real>>, ghost visits: seq<Node>)
    requires EachOnce(visits0, r0.depth) && out == Outgoing(edges, v.node)
    requires Expanding(edges, targets, maxDepth, r0.depth, Nodes(queue0), v.node, 0)
    requires Forest(edges, targets, r0) && Carries(r0, queue0) && Carries(r0, [v])
    ensures Searching(edges, targets, maxDepth, r.depth, Nodes(queue))
    ensures Forest(edges, targets, r) && Carries(r, queue)
    ensures Undiscovered(edges, r.depth) < Undiscovered(edges, r0.depth) || (r == r0 && queue == queue0)
    ensures EachOnce(visits, r.depth) && |visits| == |visits0| + |queue| - |queue0|
  {
    hide Within, Expanding, Undiscovered, Forest, Outgoing, EachOnce;
    r, queue, visits := r0, queue0, visits0;
    for j := 0 to |out|
      invariant Expanding(edges, targets, maxDepth, r.depth, Nodes(queue), v.node, j)
      invariant Forest(edges, targets, r) && Carries(r, queue) && Carries(r, [v])
      invariant Undiscovered(edges, r.depth) < Undiscovered(edges, r0.depth) || (r == r0 && queue == queue0)
      invariant EachOnce(visits, r.depth) && |visits| == |visits0| + |queue| - |queue0|
    {
      var e := out[j];
      assert e in out;
      if e.dst in targets {
        ForestHasTargets(edges, targets, r, e.dst);
        SearchSkips(edges, targets, maxDepth, r.depth, Nodes(queue), v.node, j);
        continue;
      }
      if e.dst in r.depth {
        SearchSkips(edges, targets, maxDepth, r.depth, Nodes(queue), v.node, j);
        if r.depth[e.dst] <= v.depth + 1 { continue; }
      }
      SearchDiscovers(edges, targets, maxDepth, r.depth, Nodes(queue), v.node, j);
      DiscoveryShrinks(edges, r.depth, e, v.depth + 1);
      assert v in [v];
      ReachedKeepsForest(edges, targets, r, v.node, e);
      var confidence := Min(v.carried, e.confidence);
      assert Nodes(queue + [Visit(e.dst, v.depth + 1, confidence)]) == Nodes(queue) + [e.dst];
      NewVisitCarries(r, queue, [v], v.node, e, v.depth, v.carried);
      OneMoreVisit(visits, r.depth, e.dst, v.depth + 1);
      visits := visits + [e.dst];
      r := Reached(r, v.node, e, v.depth, v.carried);
      queue := queue + [Visit(e.dst, v.depth + 1, confidence)];
    }
    SearchFinishesNode(edges, targets, maxDepth, r.depth, Nodes(queue), v.node);
  }

  lemma ForestHasTargets(edges: seq<Edge>, targets: set<Node>, r: Radius, n: Node)
    requires Forest(edges, targets, r) && n in targets
    ensures n in r.depth
  {
  }

  lemma NewVisitCarries(r: Radius, queue: seq<Visit<real>>, current: seq<Visit<real>>, n: Node, e: Edge, depth: nat, confidence: real)
    requires Carries(r, queue) && Carries(r, current) && e.dst !in r.depth
    ensures var r' := Reached(r, n, e, depth, confidence);
      Carries(r', queue + [Visit(e.dst, depth + 1, Min(confidence, e.confidence))]) && Carries(r', current)
  {
  }

  /** The visited nodes are exactly those within `maxDepth` reverse dependencies of a target, at their
      exact distance; the parent map leads each of them one step closer over a dependency. Each of them was
      in the queue once. */
  method BlastRadiusIds(raw: seq<GraphEdge>, targets: set<Node>, maxDepth: nat) returns (r: Radius, ghost visits: seq<Node>)
    ensures EachOnce(visits, r.depth)
    ensures var edges := Dependents(raw);
      && r.depth.Keys == Within(edges, targets, maxDepth)
      && (forall n :: n in r.depth ==> AtDistance(edges, targets, n, r.depth[n]))
      && Forest(edges, targets, r)
  {
    hide Within, Searching, Expanding, AtDistance, Undiscovered, Dependents, Forest, Reached, Outgoing, EachOnce;
    ghost var edges := Dependents(raw);
    var dependents := DependentsByNode(raw);
    r := Radius({}, map[], map n | n in targets :: 0, map[]);
    var queue := Listed(targets);
    SearchStarts(edges, targets, maxDepth, r.depth, Nodes(queue));
    assert Forest(edges, targets, r) by { StartsAsForest(edges, targets, r); }
    visits := Nodes(queue);
    ghost var taken := 0;
    assert EachOnce(visits, r.depth) by { StartsOnce(visits, r.depth); }
    while queue != []
      invariant Searching(edges, targets, maxDepth, r.depth, Nodes(queue))
      invariant Forest(edges, targets, r) && Carries(r, queue)
      invariant EachOnce(visits, r.depth) && |visits| == taken + |queue|
      decreases Undiscovered(edges, r.depth), |queue|
    {
      var v := queue[0];
      assert v in queue;
      SearchPops(edges, targets, maxDepth, r.depth, Nodes(queue));
      assert Nodes(queue)[1..] == Nodes(queue[1..]);
      queue := queue[1..];
      taken := taken + 1;
      if v.depth >= maxDepth { continue; }
      r, queue, visits := Expand(edges, targets, maxDepth, r, queue, v, ListedAt(dependents, v.node), visits);
    }
    assert Nodes(queue) == [];
    SearchIsExact(edges, targets, maxDepth, r.depth);
  }

  // ---- the chain ----

  function Backwards(w: seq<Node>): (r: seq<Node>)
    ensures |r| == |w| && forall i :: 0 <= i < |w| ==> r[i] == w[|w| - 1 - i]
  {
    seq(|w|, i requires 0 <= i < |w| => w[|w| - 1 - i])
  }

  /** `walk` leads down from `n` to the leaf over `es`, which with `n`'s own confidence explain the leaf's. */
  ghost predicate Climbed(edges: seq<Edge>, r: Radius, leaf: Node, n: Node, walk: seq<Node>, es: seq<Edge>) {
    && n in r.depth && leaf in r.depth && r.depth[n] + |walk| == r.depth[leaf] + 1
    && Along(edges, walk, es) && walk[0] == n && walk[|walk| - 1] == leaf
    && ConfidenceAt(r, leaf) == Min(ConfidenceAt(r, n), Least(es))
  }

  lemma ClimbStarts(edges: seq<Edge>, targets: set<Node>, r: Radius, leaf: Node)
    requires Forest(edges, targets, r) && leaf in r.depth
    ensures Climbed(edges, r, leaf, leaf, [leaf], [])
  {
    ConfidenceAtMostOne(edges, targets, r, leaf);
    MinAtMost(ConfidenceAt(r, leaf), 1.0);
  }

  lemma ParentEdge(edges: seq<Edge>, targets: set<Node>, r: Radius, n: Node) returns (e: Edge)
    requires Forest(edges, targets, r) && n in r.parent
    ensures n in r.depth && r.parent[n] in r.depth && r.depth[n] == r.depth[r.parent[n]] + 1
    ensures e in edges && e.src == r.parent[n] && e.dst == n
    ensures ConfidenceAt(r, n) == Min(ConfidenceAt(r, r.parent[n]), e.confidence)
  {
    hide Min;
    assert Descends(edges, r, n);
    e :| e in edges && e.src == r.parent[n] && e.dst == n && r.confidence[n] == Min(ConfidenceAt(r, r.parent[n]), e.confidence);
  }

  lemma Climb(edges: seq<Edge>, targets: set<Node>, r: Radius, leaf: Node, n: Node, walk: seq<Node>, es: seq<Edge>) returns (e: Edge)
    requires Forest(edges, targets, r) && Climbed(edges, r, leaf, n, walk, es) && n in r.parent
    ensures Climbed(edges, r, leaf, r.parent[n], [r.parent[n]] + walk, [e] + es)
    ensures r.depth[r.parent[n]] < r.depth[n]
  {
    hide Least, Along, Min;
    e := ParentEdge(edges, targets, r, n);
    hide Forest, ConfidenceAt;
    LeastCons(e, es);
    MinAssociates(ConfidenceAt(r, r.parent[n]), e.confidence, Least(es));
    AlongCons(edges, walk, es, e);
  }

  lemma ClimbEnds(edges: seq<Edge>, targets: set<Node>, r: Radius, leaf: Node, n: Node, walk: seq<Node>, es: seq<Edge>)
    requires Forest(edges, targets, r) && Climbed(edges, r, leaf, n, walk, es) && n !in r.parent
    ensures |walk| == r.depth[leaf] + 1 && walk[0] in targets && walk[|walk| - 1] == leaf
    ensures Walk(edges, walk) && Along(edges, walk, es) && ConfidenceAt(r, leaf) == Least(es)
  {
    AlongWalks(edges, walk, es);
    MinAtMost(Least(es), 1.0);
  }

  /** Following the parents of a visited node ends, after exactly its depth, in a target; what is shown
      is a walk over dependencies whose least confidence is the one recorded for the node. */
  method Chain(ghost edges: seq<Edge>, ghost targets: set<Node>, r: Radius, leaf: Node) returns (chain: seq<Node>, ghost es: seq<Edge>)
    requires Forest(edges, targets, r) && leaf in r.depth
    ensures |chain| == r.depth[leaf] + 1 && chain[0] in targets && chain[|chain| - 1] == leaf
    ensures Walk(edges, chain) && Along(edges, chain, es) && ConfidenceAt(r, leaf) == Least(es)
  {
    hide Forest, Walk, Along;
    chain := [leaf];
    var n := leaf;
    es := [];
    ClimbStarts(edges, targets, r, leaf);
    assert Backwards(chain) == [leaf];
    while n in r.parent
      invariant Climbed(edges, r, leaf, n, Backwards(chain), es)
      decreases r.depth[n]
    {
      ghost var e := Climb(edges, targets, r, leaf, n, Backwards(chain), es);
      n, es := r.parent[n], [e] + es;
      assert [n] + Backwards(chain) == Backwards(chain + [n]);
      chain := chain + [n];
    }
    ClimbEnds(edges, targets, r, leaf, n, Backwards(chain), es);
    chain := Backwards(chain);
  }

  // ---- what "affected" means ----

  predicate DependsOn(raw: seq<GraphEdge>, a: Node, b: Node) {
    exists g :: g in raw && g.kind in DEPENDENCY_KINDS && g.source == a && g.target == b
  }

  predicate DependencyPath(raw: seq<GraphEdge>, w: seq<Node>) {
    w != [] && forall i :: 0 <= i < |w| - 1 ==> DependsOn(raw, w[i], w[i + 1])
  }

  lemma LinkedIsDependsOn(raw: seq<GraphEdge>, a: Node, b: Node)
    ensures Linked(Dependents(raw), a, b) <==> DependsOn(raw, b, a)
  {
    if Linked(Dependents(raw), a, b) {
      var e :| e in Dependents(raw) && e.src == a && e.dst == b;
    }
    if DependsOn(raw, b, a) {
      var g :| g in raw && g.kind in DEPENDENCY_KINDS && g.source == b && g.target == a;
      assert g.Reversed() in Dependents(raw);
    }
  }

  ghost predicate DependsWithin(raw: seq<GraphEdge>, n: Node, targets: set<Node>, hops: nat) {
    exists w :: DependencyPath(raw, w) && |w| <= hops + 1 && w[0] == n && w[|w| - 1] in targets
  }

  /** The search over reversed edges finds exactly the nodes that depend on a target, directly or
      through at most `hops - 1` others. */
  lemma WithinIsDependence(raw: seq<GraphEdge>, targets: set<Node>, n: Node, hops: nat)
    ensures n in Within(Dependents(raw), targets, hops) <==> DependsWithin(raw, n, targets, hops)
  {
    WithinIffWalkable(Dependents(raw), targets, n, hops);
    hide Within, Dependents, DependsOn, Linked;
    forall a, b ensures Linked(Dependents(raw), a, b) <==> DependsOn(raw, b, a) {
      LinkedIsDependsOn(raw, a, b);
    }
    if Walkable(Dependents(raw), targets, n, hops) {
      var w :| Walk(Dependents(raw), w) && |w| <= hops + 1 && w[0] in targets && w[|w| - 1] == n;
      BackwardsIsPath(raw, w);
      assert DependencyPath(raw, Backwards(w));
    }
    if DependsWithin(raw, n, targets, hops) {
      var w :| DependencyPath(raw, w) && |w| <= hops + 1 && w[0] == n && w[|w| - 1] in targets;
      BackwardsIsWalk(raw, w);
      assert Walk(Dependents(raw), Backwards(w));
    }
  }

  lemma BackwardsIsPath(raw: seq<GraphEdge>, w: seq<Node>)
    requires Walk(Dependents(raw), w)
    ensures DependencyPath(raw, Backwards(w))
  {
    hide Dependents, DependsOn, Linked;
    var b := Backwards(w);
    forall i | 0 <= i < |b| - 1 ensures DependsOn(raw, b[i], b[i + 1]) {
      assert Linked(Dependents(raw), w[|w| - 2 - i], w[|w| - 2 - i + 1]);
      LinkedIsDependsOn(raw, w[|w| - 2 - i], w[|w| - 1 - i]);
    }
  }

  lemma BackwardsIsWalk(raw: seq<GraphEdge>, w: seq<Node>)
    requires DependencyPath(raw, w)
    ensures Walk(Dependents(raw), Backwards(w))
  {
    hide Dependents, DependsOn, Linked;
    var b := Backwards(w);
    forall i | 0 <= i < |b| - 1 ensures Linked(Dependents(raw), b[i], b[i + 1]) {
      assert DependsOn(raw, w[|w| - 2 - i], w[|w| - 2 - i + 1]);
      LinkedIsDependsOn(raw, w[|w| - 1 - i], w[|w| - 2 - i]);
    }
  }
}
