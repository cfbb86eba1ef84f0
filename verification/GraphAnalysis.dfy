/** Static analysis of a graph: enumeration of its simple cycles, protection, reachability. */
module GraphAnalysis {
  import opened Wrappers
  import opened Sequences

  /** An edge as the analysis sees it: its ends and its visit bound, if any. */
  datatype Edge = Edge(from: string, to: string, maxVisits: Option<nat>)

  // ------------------------------------------------------------ order of names

  /** Lexicographic order of names, the order of Rust strings. */
  predicate Less(a: string, b: string) {
    b != "" && (a == "" || a[0] < b[0] || (a[0] == b[0] && Less(a[1..], b[1..])))
  }

  lemma {:induction false} LessIrreflexive(a: string)
    ensures !Less(a, a)
  {
    if a != "" {
      LessIrreflexive(a[1..]);
    }
  }

  lemma {:induction false} LessTotal(a: string, b: string)
    ensures a == b || Less(a, b) || Less(b, a)
  {
    if a != "" && b != "" && a[0] == b[0] {
      LessTotal(a[1..], b[1..]);
      assert a == [a[0]] + a[1..] && b == [b[0]] + b[1..];
    }
  }

  lemma {:induction false} LessTransitive(a: string, b: string, c: string)
    requires Less(a, b) && Less(b, c)
    ensures Less(a, c)
  {
    if a != "" && a[0] == b[0] == c[0] {
      LessTransitive(a[1..], b[1..], c[1..]);
    }
  }

  /** Where two lists first differ, or one ends. */
  function Parting<T(==)>(a: seq<T>, b: seq<T>): (k: nat)
    ensures k <= |a| && k <= |b| && a[..k] == b[..k] && (k < |a| && k < |b| ==> a[k] != b[k])
  {
    if a == [] || b == [] || a[0] != b[0] then 0
    else
      assert a == [a[0]] + a[1..] && b == [b[0]] + b[1..];
      Parting(a[1..], b[1..]) + 1
  }

  /** The lesser of two names is the one that ends there, or has the lesser character there. */
  lemma {:induction false} LessMeans(a: string, b: string)
    ensures var k := Parting(a, b);
      Less(a, b) <==> k < |b| && (k == |a| || a[k] < b[k])
  {
    if a != "" && b != "" && a[0] == b[0] {
      LessMeans(a[1..], b[1..]);
    }
  }

  // ---------------------------------------------------------------- adjacency

  /** Targets of the edges leaving `u`, in order. */
  function Neighbors(edges: seq<Edge>, u: string): seq<string> {
    if edges == [] then []
    else
      var before := Neighbors(edges[..|edges| - 1], u);
      var e := edges[|edges| - 1];
      if e.from == u then before + [e.to] else before
  }

  function Targets(edges: seq<Edge>): set<string> {
    set e | e in edges :: e.to
  }

  lemma {:induction false} NeighborIsTarget(edges: seq<Edge>, u: string)
    ensures forall v | v in Neighbors(edges, u) ::
              v in Targets(edges) && exists e | e in edges :: e.from == u && e.to == v
  {
    if edges != [] {
      NeighborIsTarget(edges[..|edges| - 1], u);
      assert edges[|edges| - 1] in edges;
      assert forall e | e in edges[..|edges| - 1] :: e in edges;
    }
  }

  lemma {:induction false} EdgeIsNeighbor(edges: seq<Edge>, e: Edge)
    requires e in edges
    ensures e.to in Neighbors(edges, e.from)
  {
    if e != edges[|edges| - 1] {
      assert e in edges[..|edges| - 1];
      EdgeIsNeighbor(edges[..|edges| - 1], e);
    }
  }

  /** How many parallel edges run from `u` to `v`. */
  function Parallel(edges: seq<Edge>, u: string, v: string): nat {
    multiset(Neighbors(edges, u))[v]
  }

  method BuildAdj(edges: seq<Edge>) returns (adj: map<string, seq<string>>)
    ensures forall u :: (if u in adj then adj[u] else []) == Neighbors(edges, u)
  {
    adj := map[];
    for i := 0 to |edges|
      invariant forall u :: (if u in adj then adj[u] else []) == Neighbors(edges[..i], u)
    {
      var e := edges[i];
      assert edges[..i + 1][..i] == edges[..i];
      adj := adj[e.from := (if e.from in adj then adj[e.from] else []) + [e.to]];
    }
    assert edges[..|edges|] == edges;
  }

  // ------------------------------------------------------- simple cycles, once

  predicate Distinct(p: seq<string>) {
    forall i, j | 0 <= i < j < |p| :: p[i] != p[j]
  }

  /** A path of distinct nodes in which the first is the smallest. */
  predicate FromSmallest(p: seq<string>) {
    p != [] && Distinct(p) && forall i | 0 < i < |p| :: Less(p[0], p[i])
  }

  /** The node a cycle visits after its first `q` nodes. */
  function NextOn(c: seq<string>, q: nat): string
    requires 0 < q <= |c|
  {
    if q == |c| then c[0] else c[q]
  }

  /** Number of ways to walk the cycle onward from its q-th node: product of edge multiplicities. */
  function Ways(edges: seq<Edge>, c: seq<string>, q: nat): nat
    requires 0 < q <= |c|
    decreases |c| - q
  {
    Parallel(edges, c[q - 1], NextOn(c, q)) * (if q == |c| then 1 else Ways(edges, c, q + 1))
  }

  /** Cycles the search adds while it looks at the neighbours of the last node of `path`, from the
      i-th on. */
  function Explore(edges: seq<Edge>, start: string, path: seq<string>, i: nat): seq<seq<string>>
    requires path != [] && i <= |Neighbors(edges, path[|path| - 1])|
    decreases Targets(edges) - (set v | v in path), |Neighbors(edges, path[|path| - 1])| - i
  {
    var ns := Neighbors(edges, path[|path| - 1]);
    if i == |ns| then []
    else
      var v := ns[i];
      var found :=
        if v == start && |path| >= 2 then [path]
        else if Less(start, v) && v !in path then
          NeighborIsTarget(edges, path[|path| - 1]);
          assert v in Targets(edges) - (set w | w in path) && v !in Targets(edges) - (set w | w in path + [v]);
          assert forall w | w in path :: w in path + [v];
          Explore(edges, start, path + [v], 0)
        else [];
      found + Explore(edges, start, path, i + 1)
  }

  /** Ways to go on from a path that is the beginning of the cycle `c`. */
  function Rest(edges: seq<Edge>, c: seq<string>, q: nat): nat
    requires 0 < q <= |c|
  {
    if q == |c| then 1 else Ways(edges, c, q + 1)
  }

  /** Is `path` the beginning of `c`, a simple cycle of at least two nodes from its smallest one? */
  predicate Begins(path: seq<string>, c: seq<string>) {
    path != [] && path <= c && FromSmallest(c) && |c| >= 2
  }

  /** How often the search reports `c` through one edge from the end of `path` to `v`. */
  function Through(edges: seq<Edge>, path: seq<string>, v: string, c: seq<string>): nat {
    if Begins(path, c) && NextOn(c, |path|) == v then Rest(edges, c, |path|) else 0
  }

  /** How often the rest of the search from `path` reports the cycle `c`. */
  function Expected(edges: seq<Edge>, path: seq<string>, i: nat, c: seq<string>): nat
    requires path != [] && i <= |Neighbors(edges, path[|path| - 1])|
  {
    if Begins(path, c)
    then multiset(Neighbors(edges, path[|path| - 1])[i..])[NextOn(c, |path|)] * Rest(edges, c, |path|)
    else 0
  }

  lemma ExpectedStep(edges: seq<Edge>, path: seq<string>, i: nat, c: seq<string>)
    requires path != [] && i < |Neighbors(edges, path[|path| - 1])|
    ensures Expected(edges, path, i, c)
         == Through(edges, path, Neighbors(edges, path[|path| - 1])[i], c) + Expected(edges, path, i + 1, c)
  {
    hide Rest, Neighbors;
    var ns := Neighbors(edges, path[|path| - 1]);
    assert ns[i..] == [ns[i]] + ns[i + 1..];
    if Begins(path, c) {
      OneMore(multiset(ns[i + 1..])[NextOn(c, |path|)], Rest(edges, c, |path|));
    }
  }

  lemma OneMore(k: nat, w: nat)
    ensures (k + 1) * w == w + k * w
  {
  }

  lemma {:induction false} ExploreCount(edges: seq<Edge>, path: seq<string>, i: nat, c: seq<string>)
    requires FromSmallest(path) && i <= |Neighbors(edges, path[|path| - 1])|
    ensures multiset(Explore(edges, path[0], path, i))[c] == Expected(edges, path, i, c)
    decreases Targets(edges) - (set v | v in path), |Neighbors(edges, path[|path| - 1])| - i
  {
    var ns := Neighbors(edges, path[|path| - 1]);
    if i < |ns| {
      hide Expected, Through, Begins;
      var v := ns[i];
      ExpectedStep(edges, path, i, c);
      ExploreCount(edges, path, i + 1, c);
      if v == path[0] && |path| >= 2 {
        ClosingEdge(edges, path, c);
      } else if Less(path[0], v) && v !in path {
        FreshNode(edges, path, v);
        ExploreCount(edges, path + [v], 0, c);
        Descend(edges, path, v, c);
      } else {
        DeadEdge(edges, path, v, c);
      }
    } else {
      NothingLeft(edges, path, c);
    }
  }

  lemma NothingLeft(edges: seq<Edge>, path: seq<string>, c: seq<string>)
    requires path != []
    ensures Expected(edges, path, |Neighbors(edges, path[|path| - 1])|, c) == 0
  {
  }

  lemma FreshNode(edges: seq<Edge>, path: seq<string>, v: string)
    requires FromSmallest(path) && Less(path[0], v) && v !in path && v in Neighbors(edges, path[|path| - 1])
    ensures FromSmallest(path + [v]) && (path + [v])[0] == path[0]
    ensures v in Targets(edges) - (set w | w in path) && v !in Targets(edges) - (set w | w in path + [v])
    ensures forall w | w in path :: w in path + [v]
  {
    NeighborIsTarget(edges, path[|path| - 1]);
  }

  /** An edge back to the start reports the path itself. */
  lemma ClosingEdge(edges: seq<Edge>, path: seq<string>, c: seq<string>)
    requires FromSmallest(path) && |path| >= 2
    ensures multiset([path])[c] == Through(edges, path, path[0], c)
  {
    if Begins(path, c) {
      if |path| < |c| {
        assert c[|path|] != c[0];
      } else {
        assert c == path;
      }
    }
    assert c == path ==> Begins(path, c);
  }

  /** Other edges are on no cycle that begins with the path. */
  lemma DeadEdge(edges: seq<Edge>, path: seq<string>, v: string, c: seq<string>)
    requires FromSmallest(path) && !(v == path[0] && |path| >= 2) && !(Less(path[0], v) && v !in path)
    ensures Through(edges, path, v, c) == 0
  {
  }

  /** Stepping to `v` continues exactly the cycles that go on with `v`. */
  lemma Descend(edges: seq<Edge>, path: seq<string>, v: string, c: seq<string>)
    requires FromSmallest(path) && Less(path[0], v)
    ensures Expected(edges, path + [v], 0, c) == Through(edges, path, v, c)
  {
    LessIrreflexive(v);
    var ns := Neighbors(edges, v);
    assert ns[0..] == ns && (path + [v])[|path|] == v;
    if Begins(path, c) && |path| < |c| && c[|path|] == v {
      assert path + [v] == c[..|path| + 1];
    }
  }

  // ------------------------------------------------------------- what is found

  predicate HasEdge(edges: seq<Edge>, u: string, v: string) {
    exists e :: e in edges && e.from == u && e.to == v
  }

  /** A simple cycle of at least two nodes. */
  ghost predicate IsCycle(edges: seq<Edge>, c: seq<string>) {
    |c| >= 2 && Distinct(c) && forall q | 0 < q <= |c| :: HasEdge(edges, c[q - 1], NextOn(c, q))
  }

  /** No two edges with the same ends. */
  predicate NoParallel(edges: seq<Edge>) {
    forall i, j | 0 <= i < j < |edges| :: edges[i].from != edges[j].from || edges[i].to != edges[j].to
  }

  /** What the builder checks of every edge. */
  predicate EndsKnown(edges: seq<Edge>, nodes: seq<string>) {
    forall e | e in edges :: e.from in nodes && e.to in nodes
  }

  lemma ParallelPositive(edges: seq<Edge>, u: string, v: string)
    ensures Parallel(edges, u, v) > 0 <==> HasEdge(edges, u, v)
  {
    assert Parallel(edges, u, v) > 0 <==> v in Neighbors(edges, u);
    NeighborIsTarget(edges, u);
    if HasEdge(edges, u, v) {
      var e :| e in edges && e.from == u && e.to == v;
      EdgeIsNeighbor(edges, e);
    }
  }

  lemma {:induction false} ParallelAtMostOne(edges: seq<Edge>, u: string, v: string)
    requires NoParallel(edges)
    ensures Parallel(edges, u, v) <= 1
  {
    if edges != [] {
      var before, e := edges[..|edges| - 1], edges[|edges| - 1];
      ParallelAtMostOne(before, u, v);
      if e.from == u && e.to == v {
        assert !HasEdge(before, u, v);
        ParallelPositive(before, u, v);
      }
    }
  }

  lemma {:induction false} WaysPositive(edges: seq<Edge>, c: seq<string>, q: nat)
    requires 0 < q <= |c|
    ensures Ways(edges, c, q) > 0 <==> forall k | q <= k <= |c| :: HasEdge(edges, c[k - 1], NextOn(c, k))
    decreases |c| - q
  {
    hide HasEdge, Parallel, NextOn;
    ParallelPositive(edges, c[q - 1], NextOn(c, q));
    if q < |c| {
      WaysPositive(edges, c, q + 1);
      ProductPositive(Parallel(edges, c[q - 1], NextOn(c, q)), Ways(edges, c, q + 1));
    }
  }

  lemma ProductPositive(a: nat, b: nat)
    ensures a * b > 0 <==> a > 0 && b > 0
  {
  }

  lemma {:induction false} WaysAtMostOne(edges: seq<Edge>, c: seq<string>, q: nat)
    requires NoParallel(edges) && 0 < q <= |c|
    ensures Ways(edges, c, q) <= 1
    decreases |c| - q
  {
    ParallelAtMostOne(edges, c[q - 1], NextOn(c, q));
    if q < |c| {
      WaysAtMostOne(edges, c, q + 1);
      var here, later := Parallel(edges, c[q - 1], NextOn(c, q)), Ways(edges, c, q + 1);
      assert here == 0 || here * later == later;
    }
  }

  /** The whole search: one exploration from each node. */
  function AllFound(edges: seq<Edge>, nodes: seq<string>): seq<seq<string>> {
    if nodes == [] then []
    else
      var n := nodes[|nodes| - 1];
      AllFound(edges, nodes[..|nodes| - 1]) + Explore(edges, n, [n], 0)
  }

  /** Each cycle from its smallest node is reported once for every choice among parallel edges, and
      nothing else is reported. */
  lemma {:induction false} CycleCount(edges: seq<Edge>, nodes: seq<string>, c: seq<string>)
    requires Distinct(nodes)
    ensures multiset(AllFound(edges, nodes))[c]
         == if FromSmallest(c) && |c| >= 2 && c[0] in nodes then Ways(edges, c, 1) else 0
  {
    if nodes != [] {
      var before, n := nodes[..|nodes| - 1], nodes[|nodes| - 1];
      assert nodes == before + [n];
      CycleCount(edges, before, c);
      ExploreCount(edges, [n], 0, c);
      FirstStep(edges, n, c);
      assert n !in before;
    }
  }

  lemma FirstStep(edges: seq<Edge>, n: string, c: seq<string>)
    ensures Expected(edges, [n], 0, c)
         == if FromSmallest(c) && |c| >= 2 && c[0] == n then Ways(edges, c, 1) else 0
  {
  }

  /** Soundness, completeness and uniqueness. */
  lemma CyclesFound(edges: seq<Edge>, nodes: seq<string>, c: seq<string>)
    requires Distinct(nodes) && EndsKnown(edges, nodes)
    ensures c in AllFound(edges, nodes) <==> IsCycle(edges, c) && FromSmallest(c)
    ensures NoParallel(edges) ==> multiset(AllFound(edges, nodes))[c] <= 1
  {
    CycleCount(edges, nodes, c);
    if FromSmallest(c) && |c| >= 2 {
      WaysPositive(edges, c, 1);
      assert IsCycle(edges, c) ==> HasEdge(edges, c[0], NextOn(c, 1));
      if NoParallel(edges) {
        WaysAtMostOne(edges, c, 1);
      }
    }
  }

  // ----------------------------------------------------------------- rotations

  function Rotated(c: seq<string>, k: nat): (r: seq<string>)
    requires k <= |c|
    ensures |r| == |c|
  {
    c[k..] + c[..k]
  }

  lemma RotatedCycle(edges: seq<Edge>, c: seq<string>, k: nat)
    requires IsCycle(edges, c) && k < |c|
    ensures IsCycle(edges, Rotated(c, k))
  {
    var r := Rotated(c, k);
    forall q | 0 < q <= |r|
      ensures HasEdge(edges, r[q - 1], NextOn(r, q))
    {
      var p := if q + k <= |c| then q + k else q + k - |c|;
      assert r[q - 1] == c[p - 1] && NextOn(r, q) == NextOn(c, p);
    }
  }

  /** The position of the smallest name among the first `n`. */
  function Smallest(c: seq<string>, n: nat): (k: nat)
    requires 0 < n <= |c|
    ensures k < n && forall i | 0 <= i < n && c[i] != c[k] :: Less(c[k], c[i])
  {
    if n == 1 then 0
    else
      var k := Smallest(c, n - 1);
      LessTotal(c[n - 1], c[k]);
      if Less(c[n - 1], c[k]) then
        assert forall i | 0 <= i < n - 1 && c[i] != c[n - 1] :: Less(c[n - 1], c[i]) by {
          forall i | 0 <= i < n - 1 && c[i] != c[n - 1]
            ensures Less(c[n - 1], c[i])
          {
            if c[i] != c[k] { LessTransitive(c[n - 1], c[k], c[i]); }
          }
        }
        n - 1
      else k
  }

  lemma RotatedDistinct(c: seq<string>, j: nat)
    requires Distinct(c) && j < |c|
    ensures Distinct(Rotated(c, j))
  {
  }

  lemma RotatedFromSmallest(c: seq<string>, j: nat)
    requires c != [] && Distinct(c) && j < |c|
    ensures FromSmallest(Rotated(c, j)) <==> j == Smallest(c, |c|)
  {
    hide Smallest, Less, Distinct, Rotated;
    RotatedDistinct(c, j);
    var k, r := Smallest(c, |c|), Rotated(c, j);
    forall i | 0 < i < |r|
      ensures r[i] == c[if i + j < |c| then i + j else i + j - |c|]
      ensures r[i] != r[0]
    {
      RotatedAt(c, j, i);
    }
    RotatedAt(c, j, 0);
    if j != k {
      RotatedAt(c, j, if k >= j then k - j else k - j + |c|);
      LessTransitiveClash(c[k], c[j]);
    }
  }

  lemma RotatedAt(c: seq<string>, j: nat, i: nat)
    requires Distinct(c) && j < |c| && i < |c|
    ensures Rotated(c, j)[i] == c[if i + j < |c| then i + j else i + j - |c|]
    ensures i > 0 ==> Rotated(c, j)[i] != c[j]
  {
  }

  /** Whatever node a simple cycle is written from, exactly one rotation of it is reported. */
  lemma FoundUpToRotation(edges: seq<Edge>, nodes: seq<string>, c: seq<string>)
    requires Distinct(nodes) && EndsKnown(edges, nodes) && IsCycle(edges, c)
    ensures forall j | 0 <= j < |c| :: Rotated(c, j) in AllFound(edges, nodes) <==> j == Smallest(c, |c|)
  {
    forall j | 0 <= j < |c|
      ensures Rotated(c, j) in AllFound(edges, nodes) <==> j == Smallest(c, |c|)
    {
      hide Smallest, Rotated, FromSmallest, AllFound, EndsKnown;
      RotatedCycle(edges, c, j);
      CyclesFound(edges, nodes, Rotated(c, j));
      RotatedFromSmallest(c, j);
    }
  }

  lemma LessTransitiveClash(a: string, b: string)
    ensures !(Less(a, b) && Less(b, a))
  {
  }

  // -------------------------------------------------------------- the search

  /** What one call of the search adds. */
  function Visit(edges: seq<Edge>, start: string, path: seq<string>, current: string): seq<seq<string>> {
    if current in path then [] else Explore(edges, start, path + [current], 0)
  }

  /** What one edge from the end of `path` adds. */
  function Along(edges: seq<Edge>, start: string, path: seq<string>, v: string): seq<seq<string>> {
    if v == start && |path| >= 2 then [path] else if Less(start, v) then Visit(edges, start, path, v) else []
  }

  lemma ExploreStep(edges: seq<Edge>, start: string, path: seq<string>, i: nat)
    requires path != [] && i < |Neighbors(edges, path[|path| - 1])|
    ensures Explore(edges, start, path, i)
         == Along(edges, start, path, Neighbors(edges, path[|path| - 1])[i]) + Explore(edges, start, path, i + 1)
  {
  }

  lemma ExploreEnd(edges: seq<Edge>, start: string, path: seq<string>)
    requires path != []
    ensures Explore(edges, start, path, |Neighbors(edges, path[|path| - 1])|) == []
  {
  }

  /** What the recursive search carries along: the path as a list and as a set, and the cycles so far. */
  class CycleSearch {
    var inPath: set<string>
    var path: seq<string>
    var cycles: seq<seq<string>>

    constructor (found: seq<seq<string>>)
      ensures inPath == {} && path == [] && cycles == found
    {
      inPath, path, cycles := {}, [], found;
    }

    predicate Valid()
      reads this
    {
      inPath == set v | v in path
    }

    method Dfs(edges: seq<Edge>, adj: map<string, seq<string>>, start: string, current: string)
      requires Valid()
      requires forall u :: (if u in adj then adj[u] else []) == Neighbors(edges, u)
      requires current == start || current in Targets(edges)
      modifies this
      ensures Valid() && path == old(path)
      ensures cycles == old(cycles) + Visit(edges, start, old(path), current)
      decreases Targets(edges) + {start} - inPath
    {
      hide Explore, Neighbors, Less;
      if current in inPath {
        return;
      }
      path := path + [current];
      inPath := inPath + {current};
      ghost var here := path;
      if current in adj {
        var neighbors := adj[current];
        assert neighbors == Neighbors(edges, current);
        for i := 0 to |neighbors|
          invariant Valid() && path == here
          invariant cycles + Explore(edges, start, here, i) == old(cycles) + Explore(edges, start, here, 0)
        {
          ghost var before := cycles;
          var neighbor := neighbors[i];
          if neighbor == start && |path| >= 2 {
            cycles := cycles + [path];
          } else if Less(start, neighbor) && neighbor !in inPath {
            NeighborIsTarget(edges, current);
            Dfs(edges, adj, start, neighbor);
          }
          ExploreStep(edges, start, here, i);
          assert cycles == before + Along(edges, start, here, neighbor);
          Associative(before, Along(edges, start, here, neighbor), Explore(edges, start, here, i + 1));
        }
      }
      ExploreEnd(edges, start, here);
      path := path[..|path| - 1];
      inPath := inPath - {current};
      assert path == old(path);
    }
  }

  method FindAllCycles(edges: seq<Edge>, nodes: seq<string>) returns (cycles: seq<seq<string>>)
    requires Distinct(nodes) && EndsKnown(edges, nodes)
    ensures forall c :: c in cycles <==> IsCycle(edges, c) && FromSmallest(c)
    ensures NoParallel(edges) ==> forall c :: multiset(cycles)[c] <= 1
    ensures cycles == AllFound(edges, nodes)
  {
    var adj := BuildAdj(edges);
    cycles := [];
    for i := 0 to |nodes|
      invariant cycles == AllFound(edges, nodes[..i])
    {
      assert nodes[..i + 1][..i] == nodes[..i];
      var search := new CycleSearch(cycles);
      search.Dfs(edges, adj, nodes[i], nodes[i]);
      assert [] + [nodes[i]] == [nodes[i]];
      cycles := search.cycles;
    }
    assert nodes[..|nodes|] == nodes;
    forall c
      ensures c in cycles <==> IsCycle(edges, c) && FromSmallest(c)
      ensures NoParallel(edges) ==> multiset(cycles)[c] <= 1
    {
      CyclesFound(edges, nodes, c);
    }
  }

  // ----------------------------------------------------------------- protection

  predicate BoundedEdge(edges: seq<Edge>, u: string, v: string) {
    exists e :: e in edges && e.from == u && e.to == v && e.maxVisits.Some?
  }

  predicate Protected(edges: seq<Edge>, c: seq<string>) {
    exists q | 0 < q <= |c| :: BoundedEdge(edges, c[q - 1], NextOn(c, q))
  }

  /** The edge leads from the i-th node of the cycle to the next one, around the end, and has a visit bound. */
  predicate Guards(e: Edge, c: seq<string>, i: nat)
    requires i < |c|
  {
    e.from == c[i] && e.to == (if i + 1 < |c| then c[i + 1] else c[0]) && e.maxVisits != None
  }

  lemma ProtectedMeans(edges: seq<Edge>, c: seq<string>)
    ensures Protected(edges, c) <==> exists i, e | 0 <= i < |c| && e in edges :: Guards(e, c, i)
  {
    if Protected(edges, c) {
      var q :| 0 < q <= |c| && BoundedEdge(edges, c[q - 1], NextOn(c, q));
      var e :| e in edges && e.from == c[q - 1] && e.to == NextOn(c, q) && e.maxVisits.Some?;
      assert Guards(e, c, q - 1);
    }
    forall i, e | 0 <= i < |c| && e in edges && Guards(e, c, i)
      ensures Protected(edges, c)
    {
      GuardedEdge(edges, c, i + 1, e);
    }
  }

  lemma GuardedEdge(edges: seq<Edge>, c: seq<string>, q: nat, e: Edge)
    requires 0 < q <= |c| && e in edges && Guards(e, c, q - 1)
    ensures Protected(edges, c)
  {
    assert BoundedEdge(edges, c[q - 1], NextOn(c, q));
  }

  /** Lexicographic order of cycles. */
  predicate Before(a: seq<string>, b: seq<string>) {
    b != [] && (a == [] || Less(a[0], b[0]) || (a[0] == b[0] && Before(a[1..], b[1..])))
  }

  /** The lesser of two cycles is the one that ends where they part, or has the lesser name there. */
  lemma {:induction false} BeforeMeans(a: seq<string>, b: seq<string>)
    ensures var k := Parting(a, b);
      Before(a, b) <==> k < |b| && (k == |a| || Less(a[k], b[k]))
  {
    if a != [] && b != [] && a[0] == b[0] {
      LessIrreflexive(a[0]);
      BeforeMeans(a[1..], b[1..]);
    }
  }

  lemma {:induction false} BeforeTotal(a: seq<string>, b: seq<string>)
    ensures a == b || Before(a, b) || Before(b, a)
  {
    if a != [] && b != [] {
      LessTotal(a[0], b[0]);
      if a[0] == b[0] {
        BeforeTotal(a[1..], b[1..]);
        assert a == [a[0]] + a[1..] && b == [b[0]] + b[1..];
      }
    }
  }

  lemma {:induction false} BeforeTransitive(a: seq<string>, b: seq<string>, c: seq<string>)
    requires Before(a, b) && Before(b, c)
    ensures Before(a, c)
  {
    if a != [] {
      if Less(a[0], b[0]) && Less(b[0], c[0]) {
        LessTransitive(a[0], b[0], c[0]);
      } else if a[0] == b[0] && b[0] == c[0] && !Less(a[0], b[0]) {
        BeforeTransitive(a[1..], b[1..], c[1..]);
      }
      LessIrreflexive(a[0]);
    }
  }

  /** Ascending, hence without duplicates. */
  predicate Rising(cs: seq<seq<string>>) {
    forall i, j | 0 <= i < j < |cs| :: Before(cs[i], cs[j])
  }

  /** Puts a cycle in its place unless it is there. */
  function Place(c: seq<string>, cs: seq<seq<string>>): seq<seq<string>> {
    if cs == [] || Before(c, cs[0]) then [c] + cs
    else if c == cs[0] then cs
    else [cs[0]] + Place(c, cs[1..])
  }

  lemma {:induction false} PlaceFacts(c: seq<string>, cs: seq<seq<string>>)
    requires Rising(cs)
    ensures Rising(Place(c, cs)) && forall x :: x in Place(c, cs) <==> x == c || x in cs
  {
    hide Before;
    if cs != [] {
      assert cs == [cs[0]] + cs[1..];
      if Before(c, cs[0]) {
        forall j | 0 < j < |cs|
          ensures Before(c, cs[j])
        {
          BeforeTransitive(c, cs[0], cs[j]);
        }
      } else if c != cs[0] {
        BeforeTotal(c, cs[0]);
        PlaceFacts(c, cs[1..]);
        var t := Place(c, cs[1..]);
        forall j | 0 <= j < |t|
          ensures Before(cs[0], t[j])
        {
          assert t[j] in t;
        }
      }
    }
  }

  /** The cycles on which no edge has a visit bound, in ascending order and each once. */
  method FilterUnprotected(edges: seq<Edge>, cycles: seq<seq<string>>) returns (bad: seq<seq<string>>)
    ensures forall c :: c in bad <==> c in cycles && !Protected(edges, c)
    ensures Rising(bad)
  {
    hide Protected, Before, Place;
    bad := [];
    for i := 0 to |cycles|
      invariant forall c :: c in bad <==> c in cycles[..i] && !Protected(edges, c)
      invariant Rising(bad)
    {
      if !Protected(edges, cycles[i]) {
        PlaceFacts(cycles[i], bad);
        bad := Place(cycles[i], bad);
      }
      assert cycles[..i + 1] == cycles[..i] + [cycles[i]];
    }
    assert cycles[..|cycles|] == cycles;
  }

  lemma RotatedProtection(edges: seq<Edge>, c: seq<string>, k: nat)
    requires k < |c|
    ensures Protected(edges, Rotated(c, k)) <==> Protected(edges, c)
  {
    var r := Rotated(c, k);
    if q :| 0 < q <= |c| && BoundedEdge(edges, c[q - 1], NextOn(c, q)) {
      var p := if q > k then q - k else q - k + |c|;
      assert r[p - 1] == c[q - 1] && NextOn(r, p) == NextOn(c, q);
    }
    if q :| 0 < q <= |r| && BoundedEdge(edges, r[q - 1], NextOn(r, q)) {
      var p := if q + k <= |c| then q + k else q + k - |c|;
      assert r[q - 1] == c[p - 1] && NextOn(r, q) == NextOn(c, p);
    }
  }

  /** The verdict "every cycle is protected" is about all simple cycles, not only the listed ones. */
  lemma AllProtectedMeans(edges: seq<Edge>, nodes: seq<string>)
    requires Distinct(nodes) && EndsKnown(edges, nodes)
    ensures (forall c :: c in AllFound(edges, nodes) ==> Protected(edges, c))
       <==> forall c | IsCycle(edges, c) :: Protected(edges, c)
  {
    forall c | c in AllFound(edges, nodes)
      ensures IsCycle(edges, c)
    {
      CyclesFound(edges, nodes, c);
    }
    forall c | IsCycle(edges, c) && !Protected(edges, c)
      ensures exists d :: d in AllFound(edges, nodes) && !Protected(edges, d)
    {
      var k := Smallest(c, |c|);
      FoundUpToRotation(edges, nodes, c);
      RotatedProtection(edges, c, k);
      assert Rotated(c, k) in AllFound(edges, nodes);
    }
  }

  // --------------------------------------------------------------- reachability

  ghost predicate Walk(edges: seq<Edge>, p: seq<string>) {
    p != [] && forall i | 0 < i < |p| :: HasEdge(edges, p[i - 1], p[i])
  }

  ghost predicate Reaches(edges: seq<Edge>, a: string, b: string) {
    exists p :: Walk(edges, p) && p[0] == a && p[|p| - 1] == b
  }

  lemma ReachesNext(edges: seq<Edge>, a: string, b: string, v: string)
    requires Reaches(edges, a, b) && HasEdge(edges, b, v)
    ensures Reaches(edges, a, v)
  {
    var p :| Walk(edges, p) && p[0] == a && p[|p| - 1] == b;
    assert Walk(edges, p + [v]);
    assert (p + [v])[0] == a && (p + [v])[|p + [v]| - 1] == v;
  }

  lemma {:induction false} ClosedHoldsWalk(edges: seq<Edge>, closed: set<string>, p: seq<string>)
    requires Walk(edges, p) && p[0] in closed
    requires forall e | e in edges && e.from in closed :: e.to in closed
    ensures p[|p| - 1] in closed
  {
    if |p| > 1 {
      var before := p[..|p| - 1];
      assert Walk(edges, before);
      ClosedHoldsWalk(edges, closed, before);
      assert HasEdge(edges, p[|p| - 2], p[|p| - 1]);
    }
  }

  /** Edges out of visited nodes that are not queued stay among the visited ones. */
  ghost predicate Explored(edges: seq<Edge>, visited: set<string>, queue: seq<string>) {
    forall e | e in edges && e.from in visited && e.from !in queue :: e.to in visited
  }

  /** The nodes a worklist search meets: exactly those the start reaches. */
  method Search(edges: seq<Edge>, start: string) returns (visited: set<string>)
    ensures forall n :: n in visited <==> Reaches(edges, start, n)
  {
    hide Reaches, HasEdge, Neighbors, Explored, Targets;
    ghost var all := Targets(edges) + {start};
    var adj := BuildAdj(edges);
    visited := {start};
    var queue := [start];
    StartsSearch(edges, start);
    while queue != []
      invariant start in visited && visited <= all
      invariant forall v | v in visited :: Reaches(edges, start, v)
      invariant forall v | v in queue :: v in visited
      invariant Explored(edges, visited, queue)
      decreases all - visited, |queue|
    {
      var node := queue[|queue| - 1];
      ghost var before, rest, was := queue, queue[..|queue| - 1], visited;
      queue := queue[..|queue| - 1];
      if node in adj {
        var neighbors := adj[node];
        for i := 0 to |neighbors|
          invariant was <= visited <= all
          invariant forall v | v in visited :: Reaches(edges, start, v)
          invariant forall v | v in queue :: v in visited
          invariant forall v | v in rest :: v in queue
          invariant forall v | v in visited && v !in was :: v in queue
          invariant forall k | 0 <= k < i :: neighbors[k] in visited
          invariant visited == was ==> queue == rest
        {
          var v := neighbors[i];
          if v !in visited {
            NeighborReached(edges, start, node, v);
            visited := visited + {v};
            queue := queue + [v];
          }
        }
      }
      Explores(edges, was, before, visited, queue, node);
    }
    SearchEnds(edges, start, visited);
  }

  method Unreachable(edges: seq<Edge>, nodes: seq<string>, start: string) returns (missed: seq<string>)
    ensures forall n :: n in missed <==> n in nodes && !Reaches(edges, start, n)
  {
    var visited := Search(edges, start);
    missed := [];
    for i := 0 to |nodes|
      invariant forall n :: n in missed <==> n in nodes[..i] && n !in visited
    {
      if nodes[i] !in visited {
        missed := missed + [nodes[i]];
      }
      assert nodes[..i + 1] == nodes[..i] + [nodes[i]];
    }
    assert nodes[..|nodes|] == nodes;
  }

  lemma StartsSearch(edges: seq<Edge>, start: string)
    ensures Reaches(edges, start, start) && Explored(edges, {start}, [start])
  {
  }

  lemma NeighborReached(edges: seq<Edge>, start: string, node: string, v: string)
    requires Reaches(edges, start, node) && v in Neighbors(edges, node)
    ensures Reaches(edges, start, v) && v in Targets(edges)
  {
    NeighborIsTarget(edges, node);
    assert HasEdge(edges, node, v);
    ReachesNext(edges, start, node, v);
  }

  lemma SearchEnds(edges: seq<Edge>, start: string, visited: set<string>)
    requires start in visited && Explored(edges, visited, [])
    ensures forall n :: Reaches(edges, start, n) ==> n in visited
  {
    forall n | Reaches(edges, start, n)
      ensures n in visited
    {
      var p :| Walk(edges, p) && p[0] == start && p[|p| - 1] == n;
      ClosedHoldsWalk(edges, visited, p);
    }
  }

  /** Handling one queued node keeps the rest of the frontier honest. */
  lemma Explores(edges: seq<Edge>, was: set<string>, before: seq<string>, visited: set<string>, queue: seq<string>,
                 node: string)
    requires Explored(edges, was, before) && was <= visited
    requires before != [] && before[|before| - 1] == node
    requires forall v | v in before[..|before| - 1] :: v in queue
    requires forall v | v in visited && v !in was :: v in queue
    requires forall v | v in Neighbors(edges, node) :: v in visited
    ensures Explored(edges, visited, queue)
  {
    forall e | e in edges && e.from in visited && e.from !in queue
      ensures e.to in visited
    {
      if e.from == node {
        EdgeIsNeighbor(edges, e);
      } else {
        assert e.from !in before;
      }
    }
  }
}
