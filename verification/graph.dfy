/**
 * `DependencyGraph`: a directed graph whose nodes are keyed by a caller
 * supplied hash of their payload. Each node keeps the keys of its incoming
 * and outgoing neighbours; the node objects stored under those keys are
 * always the node table's own nodes, so the keys carry all the information.
 */
module Graph {
  import opened Wrappers

  datatype Node<T> = Node(data: T, incoming: set<string>, outgoing: set<string>)

  datatype DependencyGraph<T> = DependencyGraph(nodes: map<string, Node<T>>)

  function Empty<T>(): DependencyGraph<T>
  {
    DependencyGraph(map[])
  }

  /** Every edge ends at a node of the graph. */
  ghost predicate Closed<T>(g: DependencyGraph<T>)
  {
    forall k1, k2 :: k1 in g.nodes && (k2 in g.nodes[k1].outgoing || k2 in g.nodes[k1].incoming) ==> k2 in g.nodes
  }

  /** `k2` is an outgoing neighbour of `k1` exactly when `k1` is an incoming neighbour of `k2`. */
  ghost predicate Symmetric<T>(g: DependencyGraph<T>)
  {
    forall k1, k2 :: k1 in g.nodes && k2 in g.nodes ==> (k2 in g.nodes[k1].outgoing <==> k1 in g.nodes[k2].incoming)
  }

  ghost predicate Valid<T>(g: DependencyGraph<T>)
  {
    Closed(g) && Symmetric(g)
  }

  /** `isEmpty` */
  predicate IsEmpty<T>(g: DependencyGraph<T>)
  {
    |g.nodes| == 0
  }

  /** `lookup`: the node stored under the payload's key, if any. */
  function Lookup<T>(g: DependencyGraph<T>, hash: T -> string, data: T): (r: Option<Node<T>>)
    ensures r.Some? <==> hash(data) in g.nodes
    ensures r.Some? ==> r.value == g.nodes[hash(data)]
  {
    if hash(data) in g.nodes then Some(g.nodes[hash(data)]) else None
  }

  /**
   * `lookupOrInsertNode`: the existing node, keeping its first payload, or a
   * fresh edgeless node for `data`.
   */
  function LookupOrInsertNode<T>(g: DependencyGraph<T>, hash: T -> string, data: T): (r: (DependencyGraph<T>, Node<T>))
    ensures hash(data) in r.0.nodes && r.0.nodes[hash(data)] == r.1
    ensures hash(data) in g.nodes ==> r.0 == g && r.1 == g.nodes[hash(data)]
    ensures hash(data) !in g.nodes ==> r.0.nodes == g.nodes[hash(data) := Node(data, {}, {})]
    ensures hash(data) !in g.nodes ==> |r.0.nodes| == |g.nodes| + 1
  {
    var g' := InsertKey(g, hash(data), data);
    (g', g'.nodes[hash(data)])
  }

  /** The key-level insertion behind `LookupOrInsertNode`. */
  function InsertKey<T>(g: DependencyGraph<T>, key: string, data: T): (g': DependencyGraph<T>)
    ensures key in g.nodes ==> g' == g
    ensures key !in g.nodes ==> g'.nodes == g.nodes[key := Node(data, {}, {})] && |g'.nodes| == |g.nodes| + 1
  {
    if key in g.nodes then g else DependencyGraph(g.nodes[key := Node(data, {}, {})])
  }

  /** Inserting a node keeps the graph closed and symmetric. */
  lemma InsertKeyPreservesValid<T>(g: DependencyGraph<T>, key: string, data: T)
    requires Valid(g)
    ensures Valid(InsertKey(g, key, data))
  {
  }

  /**
   * `insertEdge`: makes sure both endpoints exist, then records `to` as an
   * outgoing neighbour of `from` and `from` as an incoming neighbour of `to`.
   */
  function InsertEdge<T>(g: DependencyGraph<T>, hash: T -> string, from: T, to: T): (g': DependencyGraph<T>)
    ensures g'.nodes.Keys == g.nodes.Keys + {hash(from), hash(to)}
    ensures hash(to) in g'.nodes[hash(from)].outgoing && hash(from) in g'.nodes[hash(to)].incoming
    ensures forall k :: k in g.nodes ==> g'.nodes[k].data == g.nodes[k].data
    ensures hash(from) !in g.nodes ==> g'.nodes[hash(from)].data == from
    ensures hash(to) !in g.nodes && hash(to) != hash(from) ==> g'.nodes[hash(to)].data == to
    ensures forall k :: k in g'.nodes ==>
              g'.nodes[k].outgoing == (if k in g.nodes then g.nodes[k].outgoing else {}) + (if k == hash(from) then {hash(to)} else {})
    ensures forall k :: k in g'.nodes ==>
              g'.nodes[k].incoming == (if k in g.nodes then g.nodes[k].incoming else {}) + (if k == hash(to) then {hash(from)} else {})
  {
    AddEdge(g, hash(from), from, hash(to), to)
  }

  /** The key-level edge insertion behind `InsertEdge`. */
  function AddEdge<T>(g: DependencyGraph<T>, kf: string, from: T, kt: string, to: T): (g': DependencyGraph<T>)
    ensures g'.nodes.Keys == g.nodes.Keys + {kf, kt}
    ensures kt in g'.nodes[kf].outgoing && kf in g'.nodes[kt].incoming
    ensures forall k :: k in g.nodes ==> g'.nodes[k].data == g.nodes[k].data
    ensures kf !in g.nodes ==> g'.nodes[kf].data == from
    ensures kt !in g.nodes && kt != kf ==> g'.nodes[kt].data == to
    ensures forall k :: k in g'.nodes ==>
              g'.nodes[k].outgoing == (if k in g.nodes then g.nodes[k].outgoing else {}) + (if k == kf then {kt} else {})
    ensures forall k :: k in g'.nodes ==>
              g'.nodes[k].incoming == (if k in g.nodes then g.nodes[k].incoming else {}) + (if k == kt then {kf} else {})
  {
    DependencyGraph(map k | k in g.nodes.Keys + {kf, kt} :: EdgeNode(g, k, kf, from, kt, to))
  }

  /** Node `k` after the edge `kf -> kt` is added: existing or fresh, with the new neighbour recorded. */
  function EdgeNode<T>(g: DependencyGraph<T>, k: string, kf: string, from: T, kt: string, to: T): (n: Node<T>)
    ensures n.data == if k in g.nodes then g.nodes[k].data else if k == kf then from else to
    ensures n.outgoing == (if k in g.nodes then g.nodes[k].outgoing else {}) + (if k == kf then {kt} else {})
    ensures n.incoming == (if k in g.nodes then g.nodes[k].incoming else {}) + (if k == kt then {kf} else {})
  {
    var n := if k in g.nodes then g.nodes[k] else Node(if k == kf then from else to, {}, {});
    n.(outgoing := n.outgoing + (if k == kf then {kt} else {}),
       incoming := n.incoming + (if k == kt then {kf} else {}))
  }

  /** Edge insertion keeps the graph closed and its edges symmetric. */
  lemma InsertEdgePreservesValid<T>(g: DependencyGraph<T>, hash: T -> string, from: T, to: T)
    requires Valid(g)
    ensures Valid(InsertEdge(g, hash, from, to))
  {
    var g' := InsertEdge(g, hash, from, to);
    forall k1, k2 | k1 in g'.nodes && k2 in g'.nodes
      ensures k2 in g'.nodes[k1].outgoing <==> k1 in g'.nodes[k2].incoming
    {
      InsertEdgeSymmetricAt(g, hash, from, to, k1, k2);
    }
  }

  /** The pair `k1`, `k2` keeps its edges symmetric across an edge insertion. */
  lemma InsertEdgeSymmetricAt<T>(g: DependencyGraph<T>, hash: T -> string, from: T, to: T, k1: string, k2: string)
    requires Valid(g)
    requires k1 in InsertEdge(g, hash, from, to).nodes && k2 in InsertEdge(g, hash, from, to).nodes
    ensures var g' := InsertEdge(g, hash, from, to);
            k2 in g'.nodes[k1].outgoing <==> k1 in g'.nodes[k2].incoming
  {
    if k1 in g.nodes && k2 in g.nodes {
      assert k2 in g.nodes[k1].outgoing <==> k1 in g.nodes[k2].incoming;
    }
  }

  /** Inserting an edge that is already there leaves the graph unchanged. */
  lemma InsertEdgeIdempotent<T>(g: DependencyGraph<T>, hash: T -> string, from: T, to: T)
    ensures InsertEdge(InsertEdge(g, hash, from, to), hash, from, to) == InsertEdge(g, hash, from, to)
  {
    var g1 := InsertEdge(g, hash, from, to);
    AddEdgeIdempotent(g1, hash(from), from, hash(to), to);
  }

  lemma AddEdgeIdempotent<T>(g: DependencyGraph<T>, kf: string, from: T, kt: string, to: T)
    requires kf in g.nodes && kt in g.nodes && kt in g.nodes[kf].outgoing && kf in g.nodes[kt].incoming
    ensures AddEdge(g, kf, from, kt, to) == g
  {
    var g' := AddEdge(g, kf, from, kt, to);
    assert g'.nodes.Keys == g.nodes.Keys;
    forall k | k in g.nodes
      ensures g'.nodes[k] == g.nodes[k]
    {
      EdgeNodeIdempotent(g, k, kf, from, kt, to);
    }
    assert g'.nodes == g.nodes;
  }

  lemma EdgeNodeIdempotent<T>(g: DependencyGraph<T>, k: string, kf: string, from: T, kt: string, to: T)
    requires kf in g.nodes && kt in g.nodes && kt in g.nodes[kf].outgoing && kf in g.nodes[kt].incoming && k in g.nodes
    ensures EdgeNode(g, k, kf, from, kt, to) == g.nodes[k]
  {
    var n := EdgeNode(g, k, kf, from, kt, to);
    assert n.outgoing == g.nodes[k].outgoing;
    assert n.incoming == g.nodes[k].incoming;
  }

  /**
   * `removeNode`: deletes the payload's node and strips its key from the
   * incoming and outgoing neighbours of every remaining node.
   */
  function RemoveNode<T>(g: DependencyGraph<T>, hash: T -> string, data: T): (g': DependencyGraph<T>)
    ensures g'.nodes.Keys == g.nodes.Keys - {hash(data)}
    ensures forall k :: k in g'.nodes ==>
              && g'.nodes[k].data == g.nodes[k].data
              && g'.nodes[k].outgoing == g.nodes[k].outgoing - {hash(data)}
              && g'.nodes[k].incoming == g.nodes[k].incoming - {hash(data)}
    ensures hash(data) in g.nodes ==> |g'.nodes| == |g.nodes| - 1
    ensures hash(data) !in g.nodes && Closed(g) ==> g' == g
  {
    RemoveKey(g, hash(data))
  }

  /** The key-level removal behind `RemoveNode`. */
  function RemoveKey<T>(g: DependencyGraph<T>, key: string): (g': DependencyGraph<T>)
    ensures g'.nodes.Keys == g.nodes.Keys - {key}
    ensures forall k :: k in g'.nodes ==>
              && g'.nodes[k].data == g.nodes[k].data
              && g'.nodes[k].outgoing == g.nodes[k].outgoing - {key}
              && g'.nodes[k].incoming == g.nodes[k].incoming - {key}
    ensures key in g.nodes ==> |g'.nodes| == |g.nodes| - 1
    ensures key !in g.nodes && Closed(g) ==> g' == g
    ensures Valid(g) ==> Valid(g')
  {
    var g' := DependencyGraph(map k | k in g.nodes && k != key ::
                 g.nodes[k].(outgoing := g.nodes[k].outgoing - {key}, incoming := g.nodes[k].incoming - {key}));
    assert g'.nodes.Keys == g.nodes.Keys - {key};
    RemoveAbsentKey(g, key, g');
    g'
  }

  lemma RemoveAbsentKey<T>(g: DependencyGraph<T>, key: string, g': DependencyGraph<T>)
    requires g'.nodes == map k | k in g.nodes && k != key ::
                 g.nodes[k].(outgoing := g.nodes[k].outgoing - {key}, incoming := g.nodes[k].incoming - {key})
    ensures key !in g.nodes && Closed(g) ==> g' == g
  {
    if key !in g.nodes && Closed(g) {
      assert g'.nodes.Keys == g.nodes.Keys;
      forall k | k in g.nodes
        ensures g'.nodes[k] == g.nodes[k]
      {
        assert key !in g.nodes[k].outgoing && key !in g.nodes[k].incoming;
      }
    }
  }

  /** `roots`: the keys of the nodes without outgoing edges. */
  function Roots<T>(g: DependencyGraph<T>): (r: set<string>)
    ensures forall k :: k in r <==> k in g.nodes && g.nodes[k].outgoing == {}
  {
    set k | k in g.nodes && g.nodes[k].outgoing == {}
  }

  /**
   * A ranking that strictly decreases along every edge: a witness that the
   * graph has no cycle.
   */
  ghost predicate Ranked<T>(g: DependencyGraph<T>, rank: map<string, nat>)
  {
    && g.nodes.Keys <= rank.Keys
    && forall k1, k2 :: k1 in g.nodes && k2 in g.nodes[k1].outgoing && k2 in rank ==> rank[k2] < rank[k1]
  }

  ghost predicate Acyclic<T>(g: DependencyGraph<T>)
  {
    exists rank :: Ranked(g, rank)
  }

  /** A key of least rank among `keys`. */
  lemma {:induction false} LeastRanked(keys: set<string>, rank: map<string, nat>) returns (m: string)
    requires keys != {} && keys <= rank.Keys
    ensures m in keys && forall k :: k in keys ==> rank[m] <= rank[k]
    decreases |keys|
  {
    var x :| x in keys;
    if keys == {x} {
      m := x;
    } else {
      var m' := LeastRanked(keys - {x}, rank);
      m := if rank[x] <= rank[m'] then x else m';
    }
  }

  function RankOf(rank: map<string, nat>, k: string): nat
  {
    if k in rank then rank[k] else 0
  }

  /** A non-empty acyclic valid graph has a root: one of least rank. */
  lemma AcyclicHasRoot<T>(g: DependencyGraph<T>, rank: map<string, nat>)
    requires Valid(g) && Ranked(g, rank) && !IsEmpty(g)
    ensures Roots(g) != {}
  {
    assert g.nodes.Keys != {} by {
      var k :| k in g.nodes;
    }
    var m := LeastRanked(g.nodes.Keys, rank);
    assert forall k2 :: k2 in g.nodes[m].outgoing ==> RankOf(rank, k2) < RankOf(rank, m) <= RankOf(rank, k2);
    assert g.nodes[m].outgoing == {};
    assert m in Roots(g);
  }

  /** The engine's cycle check is sound: a non-empty graph without roots has a cycle. */
  lemma NoRootsMeansCycle<T>(g: DependencyGraph<T>)
    requires Valid(g) && !IsEmpty(g) && Roots(g) == {}
    ensures !Acyclic(g)
  {
    if Acyclic(g) {
      var rank :| Ranked(g, rank);
      AcyclicHasRoot(g, rank);
    }
  }

  /** Removing a node keeps a ranking valid. */
  lemma RemovePreservesRanked<T>(g: DependencyGraph<T>, hash: T -> string, data: T, rank: map<string, nat>)
    requires Ranked(g, rank)
    ensures Ranked(RemoveNode(g, hash, data), rank)
  {
  }

  /**
   * A knot: a non-empty set of nodes each of which has an edge to another
   * node of the set (possibly itself). Following edges inside a knot never
   * ends, so no ranking can order it.
   */
  ghost predicate Knot<T>(g: DependencyGraph<T>, keys: set<string>)
  {
    && keys != {} && keys <= g.nodes.Keys
    && forall k | Inside(keys, k) :: exists k2 | k2 in g.nodes[k].outgoing :: k2 in keys
  }

  /** Membership in a knot, kept apart from plain set membership so that a knot is unfolded one member at a time. */
  ghost predicate Inside(keys: set<string>, k: string)
  {
    k in keys
  }

  /** A ranked graph has no knot: the member of least rank would need an edge to a smaller one. */
  lemma RankedHasNoKnot<T>(g: DependencyGraph<T>, rank: map<string, nat>, keys: set<string>)
    requires Ranked(g, rank)
    ensures !Knot(g, keys)
  {
    if keys != {} && keys <= g.nodes.Keys {
      var m := LeastRanked(keys, rank);
      assert Inside(keys, m);
      assert forall k2 | k2 in g.nodes[m].outgoing :: k2 !in keys;
    }
  }

  /** A closed graph with nodes but no knot has a root: otherwise all its nodes would form one. */
  lemma KnotFreeHasRoot<T>(g: DependencyGraph<T>)
    requires Closed(g) && g.nodes.Keys != {} && !Knot(g, g.nodes.Keys)
    ensures Roots(g) != {}
  {
    var k :| Inside(g.nodes.Keys, k) && !(exists k2 | k2 in g.nodes[k].outgoing :: k2 in g.nodes.Keys);
    assert g.nodes[k].outgoing == {};
    assert k in Roots(g);
  }

  /** The graph without the nodes `gone`, whose keys are also struck from every remaining edge set. */
  function Without<T>(g: DependencyGraph<T>, gone: set<string>): (g': DependencyGraph<T>)
    ensures g'.nodes.Keys == g.nodes.Keys - gone
    ensures forall k | k in g'.nodes :: g'.nodes[k].outgoing == g.nodes[k].outgoing - gone
  {
    var g' := DependencyGraph(map k | k in g.nodes && k !in gone ::
                 g.nodes[k].(outgoing := g.nodes[k].outgoing - gone, incoming := g.nodes[k].incoming - gone));
    assert g'.nodes.Keys == g.nodes.Keys - gone;
    g'
  }

  /**
   * A closed graph without knots is acyclic: rank its roots 0 and every
   * other node one above its rank in the graph without the roots.
   */
  lemma {:induction false} KnotFreeRanked<T>(g: DependencyGraph<T>) returns (rank: map<string, nat>)
    requires Closed(g) && forall keys :: !Knot(g, keys)
    ensures Ranked(g, rank)
    decreases |g.nodes|
  {
    if g.nodes.Keys == {} {
      return map[];
    }
    var roots := Roots(g);
    KnotFreeHasRoot(g);
    var g' := Without(g, roots);
    forall keys
      ensures !Knot(g', keys)
    {
      if keys != {} && keys <= g'.nodes.Keys {
        assert !Knot(g, keys);
        var k :| Inside(keys, k) && !(exists k2 | k2 in g.nodes[k].outgoing :: k2 in keys);
        assert g'.nodes[k].outgoing <= g.nodes[k].outgoing;
      }
    }
    var r :| r in roots;
    SubsetCard(g'.nodes.Keys, g.nodes.Keys - {r});
    assert |g.nodes.Keys - {r}| == |g.nodes.Keys| - 1;
    var rank' := KnotFreeRanked(g');
    rank := map k | k in g.nodes :: if k in roots then 0 else rank'[k] + 1;
    forall k1, k2 | k1 in g.nodes && k2 in g.nodes[k1].outgoing && k2 in rank
      ensures rank[k2] < rank[k1]
    {
      assert k1 !in roots;
      if k2 !in roots {
        assert k2 in g'.nodes[k1].outgoing;
      }
    }
  }

  /** A closed graph is acyclic exactly when none of its node sets is a knot. */
  lemma AcyclicIffKnotFree<T>(g: DependencyGraph<T>)
    requires Closed(g)
    ensures Acyclic(g) <==> forall keys :: !Knot(g, keys)
  {
    if Acyclic(g) {
      var rank :| Ranked(g, rank);
      forall keys
        ensures !Knot(g, keys)
      {
        RankedHasNoKnot(g, rank, keys);
      }
    }
    if forall keys :: !Knot(g, keys) {
      var rank := KnotFreeRanked(g);
    }
  }

  /** Every node other than `start` is the end of an edge. */
  ghost predicate EnteredExcept<T>(g: DependencyGraph<T>, start: string)
  {
    forall k | k in g.nodes && k != start :: exists j | j in g.nodes :: k in g.nodes[j].outgoing
  }

  /** The nodes ranked above `k`. */
  ghost function Above<T>(g: DependencyGraph<T>, rank: map<string, nat>, k: string): set<string>
    requires k in rank
  {
    set j | j in g.nodes && j in rank && rank[j] > rank[k]
  }

  /** In a ranked graph where every other node has an edge into it, `start` outranks every other node. */
  lemma {:induction false} RankedBelowStart<T>(g: DependencyGraph<T>, rank: map<string, nat>, start: string, k: string)
    requires Ranked(g, rank) && start in g.nodes && EnteredExcept(g, start)
    requires k in g.nodes && k != start
    ensures rank[k] < rank[start]
    decreases |Above(g, rank, k)|
  {
    var j :| j in g.nodes && k in g.nodes[j].outgoing;
    assert rank[k] < rank[j];
    if j != start {
      AboveShrinks(g, rank, k, j);
      RankedBelowStart(g, rank, start, j);
    }
  }

  lemma AboveShrinks<T>(g: DependencyGraph<T>, rank: map<string, nat>, k: string, j: string)
    requires k in rank && j in rank && j in g.nodes && rank[k] < rank[j]
    ensures |Above(g, rank, j)| < |Above(g, rank, k)|
  {
    var hi, lo := Above(g, rank, j), Above(g, rank, k);
    assert hi <= lo - {j};
    SubsetCard(hi, lo - {j});
  }

  /** In an acyclic graph where every other node has an edge into it, no edge ends at `start`. */
  lemma NothingReachesStart<T>(g: DependencyGraph<T>, start: string)
    requires Acyclic(g) && start in g.nodes && EnteredExcept(g, start)
    ensures forall j | j in g.nodes :: start !in g.nodes[j].outgoing
  {
    var rank :| Ranked(g, rank);
    forall j | j in g.nodes
      ensures start !in g.nodes[j].outgoing
    {
      if j != start {
        RankedBelowStart(g, rank, start, j);
      }
    }
  }

  lemma SubsetCard<K>(a: set<K>, b: set<K>)
    requires a <= b
    ensures |a| <= |b|
  {
    if a != {} {
      var x :| x in a;
      SubsetCard(a - {x}, b - {x});
    }
  }
}
