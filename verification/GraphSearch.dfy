/** What breadth-first search computes: nodes within a number of hops, by rounds of expansion and,
    independently, by walks. The three traversals in BlastRadius.dfy and ContextAssembly.dfy share the
    invariant below, one lemma per step they can take. */
module GraphSearch {
  type Node = nat

  datatype Edge = Edge(id: nat, src: Node, dst: Node, confidence: real)

  function Successors(edges: seq<Edge>, nodes: set<Node>): set<Node> {
    set e | e in edges && e.src in nodes :: e.dst
  }

  function Within(edges: seq<Edge>, sources: set<Node>, hops: nat): set<Node> {
    if hops == 0 then sources
    else Within(edges, sources, hops - 1) + Successors(edges, Within(edges, sources, hops - 1))
  }

  // ---- the same by walks ----

  predicate Linked(edges: seq<Edge>, a: Node, b: Node) {
    exists e :: e in edges && e.src == a && e.dst == b
  }

  predicate Walk(edges: seq<Edge>, nodes: seq<Node>) {
    nodes != [] && forall i :: 0 <= i < |nodes| - 1 ==> Linked(edges, nodes[i], nodes[i + 1])
  }

  ghost predicate Walkable(edges: seq<Edge>, sources: set<Node>, n: Node, hops: nat) {
    exists w :: Walk(edges, w) && |w| <= hops + 1 && w[0] in sources && w[|w| - 1] == n
  }

  lemma {:induction false} WithinWalks(edges: seq<Edge>, sources: set<Node>, n: Node, hops: nat)
    requires n in Within(edges, sources, hops)
    ensures Walkable(edges, sources, n, hops)
    decreases hops
  {
    if n in sources {
      assert Walk(edges, [n]);
    } else if n in Within(edges, sources, hops - 1) {
      WithinWalks(edges, sources, n, hops - 1);
    } else {
      var e :| e in edges && e.src in Within(edges, sources, hops - 1) && e.dst == n;
      WithinWalks(edges, sources, e.src, hops - 1);
      var w :| Walk(edges, w) && |w| <= hops && w[0] in sources && w[|w| - 1] == e.src;
      var longer := w + [n];
      forall i | 0 <= i < |longer| - 1 ensures Linked(edges, longer[i], longer[i + 1]) {
        if i == |w| - 1 {
          assert longer[i] == e.src && longer[i + 1] == e.dst;
        } else {
          assert Linked(edges, w[i], w[i + 1]);
        }
      }
      assert Walk(edges, longer);
    }
  }

  lemma {:induction false} WalksWithin(edges: seq<Edge>, sources: set<Node>, w: seq<Node>)
    requires Walk(edges, w) && w[0] in sources
    ensures w[|w| - 1] in Within(edges, sources, |w| - 1)
  {
    if |w| > 1 {
      WalksWithin(edges, sources, w[..|w| - 1]);
      assert Linked(edges, w[|w| - 2], w[|w| - 1]);
    }
  }

  lemma {:induction false} WithinMonotone(edges: seq<Edge>, sources: set<Node>, j: nat, k: nat)
    requires j <= k
    ensures Within(edges, sources, j) <= Within(edges, sources, k)
  {
    if j < k {
      WithinMonotone(edges, sources, j, k - 1);
    }
  }

  lemma WithinIffWalkable(edges: seq<Edge>, sources: set<Node>, n: Node, hops: nat)
    ensures n in Within(edges, sources, hops) <==> Walkable(edges, sources, n, hops)
  {
    if n in Within(edges, sources, hops) {
      WithinWalks(edges, sources, n, hops);
    }
    if Walkable(edges, sources, n, hops) {
      var w :| Walk(edges, w) && |w| <= hops + 1 && w[0] in sources && w[|w| - 1] == n;
      WalksWithin(edges, sources, w);
      WithinMonotone(edges, sources, |w| - 1, hops);
    }
  }

  // ---- the edges along a walk ----

  predicate Along(edges: seq<Edge>, w: seq<Node>, es: seq<Edge>) {
    && |w| == |es| + 1
    && forall i :: 0 <= i < |es| ==> es[i] in edges && es[i].src == w[i] && es[i].dst == w[i + 1]
  }

  function Min(a: real, b: real): real {
    if b < a then b else a
  }

  lemma MinAtMost(a: real, b: real)
    ensures Min(a, b) <= a && Min(a, b) <= b && Min(a, b) == Min(b, a)
    ensures a <= b ==> Min(a, b) == a
  {
  }

  lemma MinAssociates(a: real, b: real, c: real)
    ensures Min(Min(a, b), c) == Min(a, Min(c, b))
  {
  }

  /** The least confidence among some edges; 1 if there are none. */
  function Least(es: seq<Edge>): (c: real)
    ensures c <= 1.0 && forall e :: e in es ==> c <= e.confidence
    ensures c == 1.0 || exists e :: e in es && c == e.confidence
  {
    if es == [] then 1.0
    else
      assert forall e :: e in es <==> e in es[..|es| - 1] || e == es[|es| - 1];
      Min(Least(es[..|es| - 1]), es[|es| - 1].confidence)
  }

  lemma {:induction false} LeastCons(e: Edge, es: seq<Edge>)
    ensures Least([e] + es) == Min(Least(es), e.confidence)
  {
    if es != [] {
      assert ([e] + es)[..|es|] == [e] + es[..|es| - 1];
      LeastCons(e, es[..|es| - 1]);
    } else {
      assert [e] + es == [e] && [e][..0] == [];
    }
  }

  lemma AlongCons(edges: seq<Edge>, w: seq<Node>, es: seq<Edge>, e: Edge)
    requires Along(edges, w, es) && e in edges && e.dst == w[0]
    ensures Along(edges, [e.src] + w, [e] + es)
  {
  }

  lemma AlongWalks(edges: seq<Edge>, w: seq<Node>, es: seq<Edge>)
    requires Along(edges, w, es)
    ensures Walk(edges, w)
  {
    forall i | 0 <= i < |w| - 1 ensures Linked(edges, w[i], w[i + 1]) {
      assert es[i] in edges;
    }
  }

  // ---- adjacency ----

  function Outgoing(edges: seq<Edge>, n: Node): (out: seq<Edge>)
    ensures forall e :: e in out <==> e in edges && e.src == n
  {
    if edges == [] then []
    else
      var last := edges[|edges| - 1];
      Outgoing(edges[..|edges| - 1], n) + if last.src == n then [last] else []
  }

  function ListedAt(adjacency: map<Node, seq<Edge>>, n: Node): seq<Edge> {
    if n in adjacency then adjacency[n] else []
  }

  ghost predicate Adjacency(edges: seq<Edge>, adjacency: map<Node, seq<Edge>>) {
    forall n: Node :: ListedAt(adjacency, n) == Outgoing(edges, n)
  }

  lemma AdjacencyGrows(edges: seq<Edge>, adjacency: map<Node, seq<Edge>>, e: Edge)
    requires Adjacency(edges, adjacency)
    ensures Adjacency(edges + [e], adjacency[e.src := ListedAt(adjacency, e.src) + [e]])
  {
    var grown := adjacency[e.src := ListedAt(adjacency, e.src) + [e]];
    forall n: Node ensures ListedAt(grown, n) == Outgoing(edges + [e], n) {
      assert (edges + [e])[..|edges|] == edges;
      assert ListedAt(adjacency, n) == Outgoing(edges, n);
    }
  }

  method OutgoingEdges(edges: seq<Edge>) returns (adjacency: map<Node, seq<Edge>>)
    ensures Adjacency(edges, adjacency)
  {
    adjacency := map[];
    for i := 0 to |edges|
      invariant Adjacency(edges[..i], adjacency)
    {
      var e := edges[i];
      assert edges[..i + 1] == edges[..i] + [e];
      AdjacencyGrows(edges[..i], adjacency, e);
      adjacency := adjacency[e.src := ListedAt(adjacency, e.src) + [e]];
    }
    assert edges[..|edges|] == edges;
  }

  // ---- the search invariant ----

  /** Depths recorded so far are the depths of real walks within the limit. */
  ghost predicate Sound(edges: seq<Edge>, sources: set<Node>, limit: nat, depth: map<Node, nat>) {
    && (forall n :: n in sources ==> n in depth && depth[n] == 0)
    && (forall n :: n in depth ==> depth[n] <= limit && n in Within(edges, sources, depth[n]))
  }

  /** The queue is in order of depth and no recorded depth is more than one above `floor`. */
  ghost predicate Ordered(depth: map<Node, nat>, queue: seq<Node>, floor: nat) {
    && (forall i :: 0 <= i < |queue| ==> queue[i] in depth && floor <= depth[queue[i]])
    && (forall i, j :: 0 <= i < j < |queue| ==> depth[queue[i]] <= depth[queue[j]])
    && (forall n :: n in depth ==> depth[n] <= floor + 1)
  }

  ghost predicate Relaxed(edges: seq<Edge>, depth: map<Node, nat>, n: Node)
    requires n in depth
  {
    forall e :: e in edges && e.src == n ==> e.dst in depth && depth[e.dst] <= depth[n] + 1
  }

  /** Every node that is neither queued nor being expanded has passed its depth on. */
  ghost predicate Settled(edges: seq<Edge>, limit: nat, depth: map<Node, nat>, queue: seq<Node>, expanding: set<Node>) {
    forall n :: n in depth && n !in queue && n !in expanding && depth[n] < limit ==> Relaxed(edges, depth, n)
  }

  ghost predicate Searching(edges: seq<Edge>, sources: set<Node>, limit: nat, depth: map<Node, nat>, queue: seq<Node>) {
    && Sound(edges, sources, limit, depth)
    && (queue != [] ==> queue[0] in depth && Ordered(depth, queue, depth[queue[0]]))
    && Settled(edges, limit, depth, queue, {})
  }

  /** Node `n` is off the queue and its first `j` outgoing edges have been followed. */
  ghost predicate Expanding(edges: seq<Edge>, sources: set<Node>, limit: nat, depth: map<Node, nat>, queue: seq<Node>, n: Node, j: nat)
  {
    && Sound(edges, sources, limit, depth)
    && n in depth && depth[n] < limit && Ordered(depth, queue, depth[n])
    && Settled(edges, limit, depth, queue, {n})
    && j <= |Outgoing(edges, n)|
    && forall i :: 0 <= i < j ==> Outgoing(edges, n)[i].dst in depth
  }

  lemma SearchStarts(edges: seq<Edge>, sources: set<Node>, limit: nat, depth: map<Node, nat>, queue: seq<Node>)
    requires depth.Keys == sources && (forall n :: n in depth ==> depth[n] == 0)
    requires forall n :: n in queue <==> n in sources
    ensures Searching(edges, sources, limit, depth, queue)
  {
  }

  lemma SearchPops(edges: seq<Edge>, sources: set<Node>, limit: nat, depth: map<Node, nat>, queue: seq<Node>)
    requires Searching(edges, sources, limit, depth, queue) && queue != []
    ensures var n := queue[0];
      if depth[n] >= limit then Searching(edges, sources, limit, depth, queue[1..])
      else Expanding(edges, sources, limit, depth, queue[1..], n, 0)
  {
    hide Within, Relaxed, Ordered, Settled, Sound;
    var n, rest := queue[0], queue[1..];
    PopKeepsOrder(depth, queue);
    PopKeepsSettled(edges, limit, depth, queue);
  }

  lemma PopKeepsOrder(depth: map<Node, nat>, queue: seq<Node>)
    requires queue != [] && queue[0] in depth && Ordered(depth, queue, depth[queue[0]])
    ensures var rest := queue[1..];
      Ordered(depth, rest, depth[queue[0]]) && (rest != [] ==> rest[0] in depth && Ordered(depth, rest, depth[rest[0]]))
  {
    var rest := queue[1..];
    assert forall i :: 0 <= i < |rest| ==> rest[i] == queue[i + 1];
  }

  lemma PopKeepsSettled(edges: seq<Edge>, limit: nat, depth: map<Node, nat>, queue: seq<Node>)
    requires queue != [] && queue[0] in depth && Settled(edges, limit, depth, queue, {})
    ensures Settled(edges, limit, depth, queue[1..], {queue[0]})
    ensures depth[queue[0]] >= limit ==> Settled(edges, limit, depth, queue[1..], {})
  {
    hide Relaxed;
    assert queue == [queue[0]] + queue[1..];
  }

  /** A node that already has a depth has one that is at least as good. */
  lemma SearchSkips(edges: seq<Edge>, sources: set<Node>, limit: nat, depth: map<Node, nat>, queue: seq<Node>, n: Node, j: nat)
    requires Expanding(edges, sources, limit, depth, queue, n, j) && j < |Outgoing(edges, n)|
    requires Outgoing(edges, n)[j].dst in depth
    ensures depth[Outgoing(edges, n)[j].dst] <= depth[n] + 1
    ensures Expanding(edges, sources, limit, depth, queue, n, j + 1)
  {
    hide Within, Relaxed, Settled;
  }

  lemma DiscoveryIsSound(edges: seq<Edge>, sources: set<Node>, limit: nat, depth: map<Node, nat>, e: Edge)
    requires Sound(edges, sources, limit, depth) && e in edges && e.src in depth && depth[e.src] < limit && e.dst !in depth
    ensures Sound(edges, sources, limit, depth[e.dst := depth[e.src] + 1])
  {
    assert e.dst in Within(edges, sources, depth[e.src] + 1);
    hide Within;
  }

  lemma DiscoveryIsSettled(edges: seq<Edge>, limit: nat, depth: map<Node, nat>, queue: seq<Node>, n: Node, m: Node, d: nat)
    requires Settled(edges, limit, depth, queue, {n}) && m !in depth
    ensures Settled(edges, limit, depth[m := d], queue + [m], {n})
  {
    var depth', queue' := depth[m := d], queue + [m];
    forall x | x in depth' && x !in queue' && x !in {n} && depth'[x] < limit ensures Relaxed(edges, depth', x) {
      assert m == queue'[|queue|];
      assert forall i :: 0 <= i < |queue| ==> queue'[i] == queue[i];
      assert x in depth && x !in queue && Relaxed(edges, depth, x);
    }
  }

  lemma DiscoveryIsOrdered(depth: map<Node, nat>, queue: seq<Node>, n: Node, m: Node)
    requires n in depth && Ordered(depth, queue, depth[n]) && m !in depth
    ensures Ordered(depth[m := depth[n] + 1], queue + [m], depth[n])
  {
  }

  lemma SearchDiscovers(edges: seq<Edge>, sources: set<Node>, limit: nat, depth: map<Node, nat>, queue: seq<Node>, n: Node, j: nat)
    requires Expanding(edges, sources, limit, depth, queue, n, j) && j < |Outgoing(edges, n)|
    requires Outgoing(edges, n)[j].dst !in depth
    ensures var m := Outgoing(edges, n)[j].dst;
      Expanding(edges, sources, limit, depth[m := depth[n] + 1], queue + [m], n, j + 1)
  {
    hide Outgoing, Sound, Settled, Ordered;
    var e := Outgoing(edges, n)[j];
    assert e in Outgoing(edges, n) && e.src == n;
    DiscoveryIsSound(edges, sources, limit, depth, e);
    DiscoveryIsSettled(edges, limit, depth, queue, n, e.dst, depth[n] + 1);
    DiscoveryIsOrdered(depth, queue, n, e.dst);
  }

  lemma SearchFinishesNode(edges: seq<Edge>, sources: set<Node>, limit: nat, depth: map<Node, nat>, queue: seq<Node>, n: Node)
    requires Expanding(edges, sources, limit, depth, queue, n, |Outgoing(edges, n)|)
    ensures Searching(edges, sources, limit, depth, queue)
  {
    hide Within;
    assert Relaxed(edges, depth, n) by {
      forall e | e in edges && e.src == n ensures e.dst in depth {
        assert e in Outgoing(edges, n);
      }
    }
  }

  /** When the queue is empty the recorded nodes are exactly those within the limit, at their exact
      distance. */
  lemma SearchIsExact(edges: seq<Edge>, sources: set<Node>, limit: nat, depth: map<Node, nat>)
    requires Searching(edges, sources, limit, depth, [])
    ensures depth.Keys == Within(edges, sources, limit)
    ensures forall n :: n in depth ==> AtDistance(edges, sources, n, depth[n])
  {
    hide Within, Settled, Ordered;
    forall n, k: nat | k <= limit && n in Within(edges, sources, k) ensures n in depth && depth[n] <= k {
      SearchCovers(edges, sources, limit, depth, n, k);
    }
    forall n | n in depth ensures n in Within(edges, sources, limit) {
      WithinMonotone(edges, sources, depth[n], limit);
    }
  }

  ghost predicate AtDistance(edges: seq<Edge>, sources: set<Node>, n: Node, d: nat) {
    n in Within(edges, sources, d) && forall k: nat :: n in Within(edges, sources, k) ==> d <= k
  }

  lemma {:induction false} SearchCovers(edges: seq<Edge>, sources: set<Node>, limit: nat, depth: map<Node, nat>, n: Node, k: nat)
    requires Searching(edges, sources, limit, depth, []) && k <= limit && n in Within(edges, sources, k)
    ensures n in depth && depth[n] <= k
    decreases k
  {
    if n !in sources {
      if n in Within(edges, sources, k - 1) {
        SearchCovers(edges, sources, limit, depth, n, k - 1);
      } else {
        var e :| e in edges && e.src in Within(edges, sources, k - 1) && e.dst == n;
        SearchCovers(edges, sources, limit, depth, e.src, k - 1);
        assert Relaxed(edges, depth, e.src);
      }
    }
  }

  // ---- termination ----

  /** Nodes a search can still discover. */
  ghost function Undiscovered(edges: seq<Edge>, depth: map<Node, nat>): set<Node> {
    (set e | e in edges :: e.dst) - depth.Keys
  }

  lemma DiscoveryShrinks(edges: seq<Edge>, depth: map<Node, nat>, e: Edge, d: nat)
    requires e in edges && e.dst !in depth
    ensures Undiscovered(edges, depth[e.dst := d]) < Undiscovered(edges, depth)
  {
    assert e.dst in Undiscovered(edges, depth);
  }

  /** A queue entry: a node, its distance, and what the search carries along with it. */
  datatype Visit<T> = Visit(node: Node, depth: nat, carried: T)

  function Nodes<T>(queue: seq<Visit<T>>): (ns: seq<Node>)
    ensures |ns| == |queue| && forall i :: 0 <= i < |queue| ==> ns[i] == queue[i].node
  {
    seq(|queue|, i requires 0 <= i < |queue| => queue[i].node)
  }
}
