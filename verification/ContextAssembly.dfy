/** Which part of the graph goes into a prompt: everything within some hops of the seeds, the edges
    leading there, and the semantic hits. */
module ContextAssembly {
  import opened GraphSearch

  /** The ids of the edges out of some nodes. */
  function EdgeIds(edges: seq<Edge>, nodes: set<Node>): set<nat> {
    set e | e in edges && e.src in nodes :: e.id
  }

  /** The edges a search with this limit follows: those out of nodes strictly inside it. */
  function Followed(edges: seq<Edge>, seeds: set<Node>, maxHops: nat): set<nat> {
    if maxHops == 0 then {} else EdgeIds(edges, Within(edges, seeds, maxHops - 1))
  }

  ghost predicate Counts(depth: map<Node, nat>, queue: seq<Visit<()>>) {
    forall q :: q in queue ==> q.node in depth && q.depth == depth[q.node]
  }

  /** Nodes whose edges have been followed. */
  ghost function Expanded(depth: map<Node, nat>, queue: seq<Node>, limit: nat): set<Node> {
    set n | n in depth && n !in queue && depth[n] < limit
  }

  /** The selected edges leave expanded nodes, or nodes that wait for another turn. */
  ghost predicate EdgesSelected(edges: seq<Edge>, depth: map<Node, nat>, queue: seq<Node>, limit: nat, selected: set<nat>) {
    && EdgeIds(edges, Expanded(depth, queue, limit)) <= selected
    && selected <= EdgeIds(edges, set n | n in depth && depth[n] < limit)
  }

  lemma NoEdgesYet(edges: seq<Edge>, depth: map<Node, nat>, queue: seq<Node>, limit: nat)
    requires forall n :: n in depth ==> n in queue
    ensures EdgesSelected(edges, depth, queue, limit, {})
  {
    assert Expanded(depth, queue, limit) == {};
  }

  lemma DroppedKeepsEdges(edges: seq<Edge>, depth: map<Node, nat>, queue: seq<Node>, limit: nat, selected: set<nat>)
    requires EdgesSelected(edges, depth, queue, limit, selected)
    requires queue != [] && queue[0] in depth && depth[queue[0]] >= limit
    ensures EdgesSelected(edges, depth, queue[1..], limit, selected)
  {
    assert Expanded(depth, queue[1..], limit) <= Expanded(depth, queue, limit) by {
      assert queue == [queue[0]] + queue[1..];
    }
  }

  lemma InsideIsWithin(edges: seq<Edge>, sources: set<Node>, depth: map<Node, nat>, limit: nat)
    requires depth.Keys == Within(edges, sources, limit)
    requires forall n :: n in depth ==> AtDistance(edges, sources, n, depth[n])
    ensures (set n | n in depth && depth[n] < limit) == if limit == 0 then {} else Within(edges, sources, limit - 1)
  {
    hide Within;
    if limit > 0 {
      WithinMonotone(edges, sources, limit - 1, limit);
      forall n | n in depth && depth[n] < limit ensures n in Within(edges, sources, limit - 1) {
        WithinMonotone(edges, sources, depth[n], limit - 1);
      }
    }
  }

  lemma AllEdgesFollowed(edges: seq<Edge>, sources: set<Node>, depth: map<Node, nat>, limit: nat, selected: set<nat>)
    requires Searching(edges, sources, limit, depth, []) && EdgesSelected(edges, depth, [], limit, selected)
    ensures selected == Followed(edges, sources, limit)
  {
    hide Within, Searching, AtDistance;
    assert Expanded(depth, [], limit) == set n | n in depth && depth[n] < limit;
    SearchIsExact(edges, sources, limit, depth);
    InsideIsWithin(edges, sources, depth, limit);
    assert EdgeIds(edges, {}) == {};
  }

  /** Selecting every edge out of the node taken from the queue settles its edges. */
  lemma ExpandedKeepsEdges(edges: seq<Edge>, depth0: map<Node, nat>, queue0: seq<Node>, depth: map<Node, nat>, queue: seq<Node>,
                           limit: nat, selected0: set<nat>, n: Node)
    requires EdgesSelected(edges, depth0, queue0, limit, selected0)
    requires queue0 != [] && queue0[0] == n && n in depth0 && depth0[n] < limit
    requires depth0.Keys <= depth.Keys && forall m :: m in depth0 ==> depth[m] == depth0[m]
    requires forall m :: m in depth && m !in depth0 ==> m in queue
    requires forall m :: m in queue0[1..] ==> m in queue
    ensures EdgesSelected(edges, depth, queue, limit, selected0 + EdgeIds(edges, {n}))
  {
    assert queue0 == [n] + queue0[1..];
    assert Expanded(depth, queue, limit) <= Expanded(depth0, queue0, limit) + {n};
  }

  method Expand(ghost edges: seq<Edge>, ghost sources: set<Node>, ghost maxHops: nat, ghost depth0: map<Node, nat>,
                nodes0: set<Node>, selected0: set<nat>, ghost before: seq<Node>, queue0: seq<Visit<()>>, q: Visit<()>, out: seq<Edge>)
      returns (nodes: set<Node>, selected: set<nat>, queue: seq<Visit<()>>, ghost depth: map<Node, nat>)
    requires before == [q.node] + Nodes(queue0) && out == Outgoing(edges, q.node)
    requires Expanding(edges, sources, maxHops, depth0, Nodes(queue0), q.node, 0)
    requires Counts(depth0, queue0) && Counts(depth0, [q]) && nodes0 == depth0.Keys
    requires EdgesSelected(edges, depth0, before, maxHops, selected0) && q.depth < maxHops
    ensures Searching(edges, sources, maxHops, depth, Nodes(queue)) && Counts(depth, queue) && nodes == depth.Keys
    ensures EdgesSelected(edges, depth, Nodes(queue), maxHops, selected)
    ensures Undiscovered(edges, depth) < Undiscovered(edges, depth0) || (depth == depth0 && queue == queue0)
  {
    hide Within, Searching, Expanding, Undiscovered, Outgoing, EdgesSelected;
    nodes, selected, queue, depth := nodes0, selected0, queue0, depth0;
    assert q in [q];
    for j := 0 to |out|
      invariant Expanding(edges, sources, maxHops, depth, Nodes(queue), q.node, j)
      invariant Counts(depth, queue) && Counts(depth, [q]) && nodes == depth.Keys
      invariant selected == selected0 + (set e | e in out[..j] :: e.id)
      invariant depth0.Keys <= depth.Keys && forall m :: m in depth0 ==> depth[m] == depth0[m]
      invariant forall m :: m in depth && m !in depth0 ==> m in Nodes(queue)
      invariant forall m :: m in Nodes(queue0) ==> m in Nodes(queue)
      invariant Undiscovered(edges, depth) < Undiscovered(edges, depth0) || (depth == depth0 && queue == queue0)
    {
      var e := out[j];
      assert e in out && out[..j + 1] == out[..j] + [e];
      selected := selected + {e.id};
      if e.dst in nodes {
        SearchSkips(edges, sources, maxHops, depth, Nodes(queue), q.node, j);
        continue;
      }
      SearchDiscovers(edges, sources, maxHops, depth, Nodes(queue), q.node, j);
      DiscoveryShrinks(edges, depth, e, q.depth + 1);
      assert q in [q];
      assert Nodes(queue + [Visit(e.dst, q.depth + 1, ())]) == Nodes(queue) + [e.dst];
      nodes, depth, queue := nodes + {e.dst}, depth[e.dst := q.depth + 1], queue + [Visit(e.dst, q.depth + 1, ())];
    }
    SearchFinishesNode(edges, sources, maxHops, depth, Nodes(queue), q.node);
    assert out[..|out|] == out;
    assert (set e | e in out :: e.id) == EdgeIds(edges, {q.node});
    assert before[1..] == Nodes(queue0);
    ExpandedKeepsEdges(edges, depth0, before, depth, Nodes(queue), maxHops, selected0, q.node);
  }

  /** The nodes are exactly those within `maxHops` of a seed plus the semantic hits, whatever order they
      come in; the edges are exactly those that start within `maxHops - 1`. */
  method Assemble(edges: seq<Edge>, seeds: seq<Node>, hits: seq<Node>, maxHops: nat)
      returns (selectedNodes: set<Node>, selectedEdges: set<nat>)
    ensures var sources := set n | n in seeds;
      && selectedNodes == Within(edges, sources, maxHops) + (set n | n in hits)
      && selectedEdges == Followed(edges, sources, maxHops)
  {
    hide Within, Searching, Expanding, Undiscovered, Outgoing, EdgesSelected, Followed;
    ghost var sources := set n | n in seeds;
    ghost var depth: map<Node, nat> := map n | n in seeds :: 0;
    var outgoing := OutgoingEdges(edges);
    selectedNodes := set n | n in seeds;
    selectedEdges := {};
    var queue := seq(|seeds|, i requires 0 <= i < |seeds| => Visit(seeds[i], 0, ()));
    assert Nodes(queue) == seeds;
    SearchStarts(edges, sources, maxHops, depth, seeds);
    NoEdgesYet(edges, depth, seeds, maxHops);
    while queue != []
      invariant Searching(edges, sources, maxHops, depth, Nodes(queue)) && Counts(depth, queue)
      invariant selectedNodes == depth.Keys && EdgesSelected(edges, depth, Nodes(queue), maxHops, selectedEdges)
      decreases Undiscovered(edges, depth), |queue|
    {
      var q := queue[0];
      assert q in queue;
      SearchPops(edges, sources, maxHops, depth, Nodes(queue));
      assert Nodes(queue)[1..] == Nodes(queue[1..]);
      if q.depth >= maxHops {
        DroppedKeepsEdges(edges, depth, Nodes(queue), maxHops, selectedEdges);
        queue := queue[1..];
        continue;
      }
      ghost var before := Nodes(queue);
      selectedNodes, selectedEdges, queue, depth :=
        Expand(edges, sources, maxHops, depth, selectedNodes, selectedEdges, before, queue[1..], q, ListedAt(outgoing, q.node));
    }
    assert Nodes(queue) == [];
    SearchIsExact(edges, sources, maxHops, depth);
    AllEdgesFollowed(edges, sources, depth, maxHops, selectedEdges);
    for i := 0 to |hits|
      invariant selectedNodes == Within(edges, sources, maxHops) + (set n | n in hits[..i])
    {
      selectedNodes := selectedNodes + {hits[i]};
    }
    assert hits[..|hits|] == hits;
  }
}
