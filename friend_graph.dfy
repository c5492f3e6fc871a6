/** The friendship network: an undirected graph over user ids, kept as an
    adjacency map. The keys of the map are the nodes; a node stays a key after
    its last edge is removed. A self-loop `a in g[a]` is stored when a user
    befriends themself, as the graph library behind the detector does. */
module FriendGraph {
  import opened Basics

  type Graph = map<int, set<int>>

  predicate HasEdge(g: Graph, u: int, v: int)
  {
    u in g && v in g[u]
  }

  /** Every edge is stored in both directions; hence every endpoint is a node. */
  ghost predicate Symmetric(g: Graph)
  {
    forall u, v :: HasEdge(g, u, v) ==> HasEdge(g, v, u)
  }

  /** Two adjacency maps with the same nodes and the same edges are equal. */
  lemma SameEdges(g: Graph, h: Graph)
    requires g.Keys == h.Keys
    requires forall u, v :: HasEdge(g, u, v) <==> HasEdge(h, u, v)
    ensures g == h
  {
    forall u | u in g
      ensures g[u] == h[u]
    {
      forall v
        ensures v in g[u] <==> v in h[u]
      {
        assert HasEdge(g, u, v) <==> HasEdge(h, u, v);
      }
    }
  }

  /** `befriend(a, b)`: both ids become nodes and the edge a-b is present;
      no other edge changes. */
  function AddEdge(g: Graph, a: int, b: int): (r: Graph)
    ensures r.Keys == g.Keys + {a, b}
    ensures forall u, v :: HasEdge(r, u, v) <==> HasEdge(g, u, v) || (u == a && v == b) || (u == b && v == a)
    ensures Symmetric(g) ==> Symmetric(r)
  {
    var g1 := g[a := (if a in g then g[a] else {}) + {b}];
    g1[b := (if b in g1 then g1[b] else {}) + {a}]
  }

  /** Befriending two users who are already friends changes nothing. */
  lemma AddEdgeIdempotent(g: Graph, a: int, b: int)
    requires Symmetric(g) && HasEdge(g, a, b)
    ensures AddEdge(g, a, b) == g
  {
    assert HasEdge(g, b, a);
    SameEdges(AddEdge(g, a, b), g);
  }

  /** `unfriend(a, b)`: `None` when there is no edge a-b (the graph library
      raises, and every caller ignores it); otherwise the edge is gone in both
      directions, every node stays, and no other edge changes. */
  function RemoveEdge(g: Graph, a: int, b: int): (r: Option<Graph>)
    ensures r.None? <==> !HasEdge(g, a, b)
    ensures r.Some? ==> r.value.Keys == g.Keys
    ensures r.Some? ==> forall u, v :: HasEdge(r.value, u, v) <==> HasEdge(g, u, v) && !(u == a && v == b) && !(u == b && v == a)
    ensures r.Some? && Symmetric(g) ==> Symmetric(r.value)
  {
    if !HasEdge(g, a, b) then None
    else
      var g1 := g[a := g[a] - {b}];
      Some(if b in g1 then g1[b := g1[b] - {a}] else g1)
  }

  /** Removing a freshly added friendship between two known users restores
      the graph. */
  lemma RemoveUndoesAdd(g: Graph, a: int, b: int)
    requires Symmetric(g) && a in g && b in g && !HasEdge(g, a, b)
    ensures RemoveEdge(AddEdge(g, a, b), a, b) == Some(g)
  {
    var r := RemoveEdge(AddEdge(g, a, b), a, b);
    assert r.Some?;
    assert !HasEdge(g, b, a);
    SameEdges(r.value, g);
  }

  /** Re-adding a removed friendship restores the graph. */
  lemma AddUndoesRemove(g: Graph, a: int, b: int)
    requires Symmetric(g) && HasEdge(g, a, b)
    ensures RemoveEdge(g, a, b).Some? && AddEdge(RemoveEdge(g, a, b).value, a, b) == g
  {
    assert HasEdge(g, b, a);
    SameEdges(AddEdge(RemoveEdge(g, a, b).value, a, b), g);
  }

  /** The nodes one edge away from some node of `s`. */
  function Expand(g: Graph, s: set<int>): (r: set<int>)
    ensures forall v :: v in r <==> exists u :: u in s && HasEdge(g, u, v)
  {
    set u, v | u in s && u in g && v in g[u] :: v
  }

  /** Breadth-first frontier expansion: the nodes reached from `src` in at
      most `k` hops. */
  function Reach(g: Graph, src: int, k: nat): set<int>
  {
    if k == 0 then {src}
    else
      var r := Reach(g, src, k - 1);
      r + Expand(g, r)
  }

  /** `getDnetwork`: the ids within `d` hops of `src`, without `src`.
      A negative `d` reaches nothing but `src`, as a breadth-first search
      with a negative cutoff stops after the source. */
  function Neighbourhood(g: Graph, src: int, d: int): (r: set<int>)
    ensures src !in r
    ensures d <= 0 ==> r == {}
  {
    Reach(g, src, if d < 0 then 0 else d) - {src}
  }

  /** A walk: consecutive ids are friends. */
  ghost predicate IsWalk(g: Graph, p: seq<int>)
  {
    |p| >= 1 && forall i :: 0 <= i < |p| - 1 ==> HasEdge(g, p[i], p[i + 1])
  }

  /** `t` is at shortest-path distance at most `k` from `s`. */
  ghost predicate WithinHops(g: Graph, s: int, t: int, k: nat)
  {
    exists p :: IsWalk(g, p) && p[0] == s && p[|p| - 1] == t && |p| <= k + 1
  }

  lemma {:induction false} ReachHasWalk(g: Graph, src: int, k: nat, t: int) returns (p: seq<int>)
    requires t in Reach(g, src, k)
    ensures IsWalk(g, p) && p[0] == src && p[|p| - 1] == t && |p| <= k + 1
  {
    if k == 0 {
      p := [src];
    } else {
      var r := Reach(g, src, k - 1);
      if t in r {
        p := ReachHasWalk(g, src, k - 1, t);
      } else {
        var u :| u in r && HasEdge(g, u, t);
        var q := ReachHasWalk(g, src, k - 1, u);
        p := q + [t];
        forall i | 0 <= i < |p| - 1
          ensures HasEdge(g, p[i], p[i + 1])
        {
          if i < |q| - 1 {
            assert p[i] == q[i] && p[i + 1] == q[i + 1];
          }
        }
      }
    }
  }

  lemma {:induction false} SourceReached(g: Graph, src: int, k: nat)
    ensures src in Reach(g, src, k)
  {
    if k > 0 {
      SourceReached(g, src, k - 1);
    }
  }

  lemma {:induction false} WalkReaches(g: Graph, p: seq<int>, k: nat)
    requires IsWalk(g, p) && |p| <= k + 1
    ensures p[|p| - 1] in Reach(g, p[0], k)
    decreases |p|
  {
    if |p| == 1 {
      SourceReached(g, p[0], k);
    } else {
      var q := p[..|p| - 1];
      assert IsWalk(g, q) by {
        forall i | 0 <= i < |q| - 1
          ensures HasEdge(g, q[i], q[i + 1])
        {
          assert q[i] == p[i] && q[i + 1] == p[i + 1];
        }
      }
      WalkReaches(g, q, k - 1);
      assert HasEdge(g, q[|q| - 1], p[|p| - 1]);
    }
  }

  /** The neighbourhood is exactly the ids other than `src` at shortest-path
      distance 1..d from it. */
  lemma NeighbourhoodWithinHops(g: Graph, src: int, d: int, t: int)
    ensures t in Neighbourhood(g, src, d) <==> t != src && WithinHops(g, src, t, if d < 0 then 0 else d)
  {
    var k := if d < 0 then 0 else d;
    if t in Neighbourhood(g, src, d) {
      var p := ReachHasWalk(g, src, k, t);
    }
    if t != src && WithinHops(g, src, t, k) {
      var p :| IsWalk(g, p) && p[0] == src && p[|p| - 1] == t && |p| <= k + 1;
      WalkReaches(g, p, k);
    }
  }

  lemma {:induction false} ReachOfIsolated(g: Graph, src: int, k: nat)
    requires src !in g || g[src] <= {src}
    ensures Reach(g, src, k) == {src}
  {
    if k > 0 {
      ReachOfIsolated(g, src, k - 1);
      assert Expand(g, {src}) <= {src};
    }
  }

  /** A user who is not in the graph, or whose only edge is a self-loop,
      has an empty neighbourhood at every depth. */
  lemma IsolatedHasNoNeighbourhood(g: Graph, src: int, d: int)
    requires src !in g || g[src] <= {src}
    ensures Neighbourhood(g, src, d) == {}
  {
    ReachOfIsolated(g, src, if d < 0 then 0 else d);
  }

  lemma {:induction false} ReachInGraph(g: Graph, src: int, k: nat)
    requires Symmetric(g)
    ensures Reach(g, src, k) - {src} <= g.Keys
  {
    if k > 0 {
      ReachInGraph(g, src, k - 1);
    }
  }

  /** In a symmetric graph every neighbour is a node of the graph. */
  lemma NeighbourhoodInGraph(g: Graph, src: int, d: int)
    requires Symmetric(g)
    ensures Neighbourhood(g, src, d) <= g.Keys
  {
    ReachInGraph(g, src, if d < 0 then 0 else d);
  }

  /** befriend(1,2); befriend(2,3): the depth-2 neighbourhood of 1 is {2, 3}. */
  lemma ChainNeighbourhood()
    ensures Neighbourhood(AddEdge(AddEdge(map[], 1, 2), 2, 3), 1, 2) == {2, 3}
  {
    var g0: Graph := map[];
    var g1 := AddEdge(g0, 1, 2);
    var g := AddEdge(g1, 2, 3);
    assert g.Keys == {1, 2, 3};
    NeighbourhoodInGraph(g, 1, 2);
    assert IsWalk(g, [1, 2]);
    NeighbourhoodWithinHops(g, 1, 2, 2);
    assert IsWalk(g, [1, 2, 3]);
    NeighbourhoodWithinHops(g, 1, 2, 3);
  }
}
