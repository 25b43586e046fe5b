/** The comparison of two call-graph files in compare_cg.py: their dependency
    sets, their edge sets and adjacency lists, and the counts it reports. The
    printing is left out; what it prints is returned as a `Comparison`. */
module CompareCg {

  /** An entry of `depset`: one dependency, or a list of alternatives. */
  datatype DepEntry = Dep(product: string) | DepList(products: seq<string>)

  /** A call-graph edge `[src, dst]`. */
  datatype Edge = Edge(src: string, dst: string)

  /** The fields of a call-graph file that the comparison reads. */
  datatype CallGraph = CallGraph(depset: seq<DepEntry>, graph: seq<Edge>)

  /** The products an entry names. */
  function Products(x: DepEntry): seq<string> {
    match x
    case Dep(p) => [p]
    case DepList(ps) => ps
  }

  /** A product is a dependency when some entry, or some alternative of a list entry, names it. */
  ghost predicate IsDep(depset: seq<DepEntry>, p: string) {
    exists i :: 0 <= i < |depset| && p in Products(depset[i])
  }

  /** `deps1` / `deps2`: the loop over `depset`, flattening list entries. */
  method Dependencies(depset: seq<DepEntry>) returns (deps: set<string>)
    ensures forall p :: p in deps <==> IsDep(depset, p)
  {
    deps := {};
    for k := 0 to |depset|
      invariant forall p :: p in deps <==> exists i :: 0 <= i < k && p in Products(depset[i])
    {
      match depset[k] {
        case DepList(ps) =>
          ghost var before := deps;
          for j := 0 to |ps|
            invariant deps == before + set m | 0 <= m < j :: ps[m]
          {
            deps := deps + {ps[j]};
          }
          assert forall p :: p in ps <==> p in set m | 0 <= m < |ps| :: ps[m];
        case Dep(p) =>
          deps := deps + {p};
      }
    }
  }

  /** The number of entries of `g`, duplicates included, that are not edges of `t`. */
  function Missing(g: seq<Edge>, t: set<Edge>): (n: nat)
    ensures n <= |g|
  {
    if g == [] then 0
    else Missing(g[..|g| - 1], t) + (if g[|g| - 1] in t then 0 else 1)
  }

  /** The targets of `src` in graph order, duplicates kept. */
  function Targets(g: seq<Edge>, src: string): seq<string> {
    if g == [] then []
    else Targets(g[..|g| - 1], src) + (if g[|g| - 1].src == src then [g[|g| - 1].dst] else [])
  }

  /** `cg1` / `cg2` as the loop builds it: the nodes in insertion order and
      each node's list of targets. */
  datatype Adjacency = Adjacency(nodes: seq<string>, cg: map<string, seq<string>>)

  function AdjacencyOf(g: seq<Edge>): Adjacency {
    if g == [] then Adjacency([], map[])
    else
      var a := AdjacencyOf(g[..|g| - 1]);
      var e := g[|g| - 1];
      if e.src in a.cg then Adjacency(a.nodes, a.cg[e.src := a.cg[e.src] + [e.dst]])
      else Adjacency(a.nodes + [e.src], a.cg[e.src := [e.dst]])
  }

  ghost predicate Distinct(nodes: seq<string>) {
    forall i, j :: 0 <= i < j < |nodes| ==> nodes[i] != nodes[j]
  }

  /** Every source node is listed once, and `cg[src]` lists the targets of
      `src` in graph order, duplicates kept. */
  lemma AdjacencyTargets(g: seq<Edge>)
    ensures var a := AdjacencyOf(g);
            Distinct(a.nodes) && (forall n :: n in a.cg <==> n in a.nodes)
            && (forall n :: n in a.cg <==> exists i :: 0 <= i < |g| && g[i].src == n)
            && (forall n :: n in a.cg ==> a.cg[n] == Targets(g, n))
  {
    AdjacencyNodes(g);
    AdjacencySources(g);
    AdjacencyLists(g);
  }

  /** The keys of `cg` are the sources of the edges. */
  lemma {:induction false} AdjacencySources(g: seq<Edge>)
    ensures forall n :: n in AdjacencyOf(g).cg <==> exists i :: 0 <= i < |g| && g[i].src == n
    decreases |g|
  {
    if g != [] {
      var init := g[..|g| - 1];
      AdjacencySources(init);
      assert forall i :: 0 <= i < |init| ==> g[i] == init[i];
    }
  }

  /** `cg[src]` is the list of targets of `src`. */
  lemma {:induction false} AdjacencyLists(g: seq<Edge>)
    ensures var a := AdjacencyOf(g);
            forall n :: n in a.cg ==> a.cg[n] == Targets(g, n)
    decreases |g|
  {
    if g != [] {
      var init := g[..|g| - 1];
      AdjacencyLists(init);
      AdjacencySources(init);
      var a := AdjacencyOf(init);
      forall n | n !in a.cg
        ensures Targets(init, n) == []
      {
        NoTargets(init, n);
      }
    }
  }

  /** The nodes are the keys of `cg`, each listed once. */
  lemma {:induction false} AdjacencyNodes(g: seq<Edge>)
    ensures var a := AdjacencyOf(g);
            Distinct(a.nodes) && (forall n :: n in a.cg <==> n in a.nodes)
    decreases |g|
  {
    if g != [] {
      AdjacencyNodes(g[..|g| - 1]);
    }
  }

  lemma {:induction false} NoTargets(g: seq<Edge>, n: string)
    requires forall i :: 0 <= i < |g| ==> g[i].src != n
    ensures Targets(g, n) == []
    decreases |g|
  {
    if g != [] {
      NoTargets(g[..|g| - 1], n);
    }
  }

  /** `x in Targets(g, n)` exactly when `(n, x)` is an edge of `g`. */
  lemma {:induction false} TargetsEdges(g: seq<Edge>, n: string, x: string)
    ensures x in Targets(g, n) <==> Edge(n, x) in g
    decreases |g|
  {
    if g != [] {
      var init := g[..|g| - 1];
      TargetsEdges(init, n, x);
      assert g == init + [g[|g| - 1]];
    }
  }

  /** The targets of `n` whose edge from `n` is not in `t`. */
  function NodeMissing(targets: seq<string>, n: string, t: set<Edge>): nat {
    if targets == [] then 0
    else NodeMissing(targets[..|targets| - 1], n, t) + (if Edge(n, targets[|targets| - 1]) in t then 0 else 1)
  }

  /** The sum over `nodes` of their missing edges. */
  function SumNodes(nodes: seq<string>, cg: map<string, seq<string>>, t: set<Edge>): nat
    requires forall n :: n in nodes ==> n in cg
  {
    if nodes == [] then 0
    else SumNodes(nodes[..|nodes| - 1], cg, t) + NodeMissing(cg[nodes[|nodes| - 1]], nodes[|nodes| - 1], t)
  }

  lemma {:induction false} SumNodesFrame(nodes: seq<string>, cg: map<string, seq<string>>, t: set<Edge>,
                                         n: string, ts: seq<string>)
    requires forall m :: m in nodes ==> m in cg
    requires n !in nodes
    ensures SumNodes(nodes, cg[n := ts], t) == SumNodes(nodes, cg, t)
    decreases |nodes|
  {
    if nodes != [] {
      SumNodesFrame(nodes[..|nodes| - 1], cg, t, n, ts);
    }
  }

  lemma {:induction false} SumNodesAppend(nodes: seq<string>, cg: map<string, seq<string>>, t: set<Edge>,
                                          n: string, x: string)
    requires forall m :: m in nodes ==> m in cg
    requires Distinct(nodes) && n in nodes
    ensures SumNodes(nodes, cg[n := cg[n] + [x]], t) == SumNodes(nodes, cg, t) + (if Edge(n, x) in t then 0 else 1)
    decreases |nodes|
  {
    var init := nodes[..|nodes| - 1];
    var targets := cg[n] + [x];
    assert targets[..|targets| - 1] == cg[n];
    if nodes[|nodes| - 1] == n {
      forall i | 0 <= i < |init|
        ensures init[i] != n
      {
        assert init[i] == nodes[i];
      }
      SumNodesFrame(init, cg, t, n, targets);
    } else {
      assert n in init by {
        var i :| 0 <= i < |nodes| && nodes[i] == n;
        assert init[i] == n;
      }
      SumNodesAppend(init, cg, t, n, x);
    }
  }

  /** Counting per node what is missing counts every missing entry of the graph once. */
  lemma {:induction false} SumNodesMissing(g: seq<Edge>, t: set<Edge>)
    ensures var a := AdjacencyOf(g);
            (forall n :: n in a.nodes ==> n in a.cg) && SumNodes(a.nodes, a.cg, t) == Missing(g, t)
    decreases |g|
  {
    AdjacencyNodes(g);
    if g != [] {
      var init := g[..|g| - 1];
      var e := g[|g| - 1];
      SumNodesMissing(init, t);
      AdjacencyNodes(init);
      var a := AdjacencyOf(init);
      var a' := AdjacencyOf(g);
      var c := if e in t then 0 else 1;
      assert Missing(g, t) == Missing(init, t) + c;
      if e.src in a.cg {
        assert a' == Adjacency(a.nodes, a.cg[e.src := a.cg[e.src] + [e.dst]]);
        SumNodesAppend(a.nodes, a.cg, t, e.src, e.dst);
      } else {
        assert a' == Adjacency(a.nodes + [e.src], a.cg[e.src := [e.dst]]);
        assert a'.nodes[..|a'.nodes| - 1] == a.nodes;
        SumNodesFrame(a.nodes, a.cg, t, e.src, [e.dst]);
        assert [e.dst][..0] == [];
        assert NodeMissing([e.dst], e.src, t) == c;
        assert SumNodes(a'.nodes, a'.cg, t) == SumNodes(a.nodes, a'.cg, t) + c;
      }
    }
  }

  /** The loop over one graph: `t` and `cg`. */
  method Edges(g: seq<Edge>) returns (t: set<Edge>, adj: Adjacency)
    ensures forall e :: e in t <==> e in g
    ensures adj == AdjacencyOf(g)
  {
    t := {};
    adj := Adjacency([], map[]);
    for k := 0 to |g|
      invariant forall e :: e in t <==> e in g[..k]
      invariant adj == AdjacencyOf(g[..k])
    {
      assert g[..k + 1][..k] == g[..k];
      var edge := g[k];
      t := t + {edge};
      if edge.src in adj.cg {
        adj := adj.(cg := adj.cg[edge.src := adj.cg[edge.src] + [edge.dst]]);
      } else {
        adj := Adjacency(adj.nodes + [edge.src], adj.cg[edge.src := [edge.dst]]);
      }
    }
    assert g[..|g|] == g;
  }

  /** `temp = [x for x in edges if x not in other]`, counted. */
  method CountAbsent(edges: seq<string>, n: string, other: seq<string>, ghost t: set<Edge>)
    returns (count: nat)
    requires forall x :: x in other <==> Edge(n, x) in t
    ensures count == NodeMissing(edges, n, t)
  {
    count := 0;
    for k := 0 to |edges|
      invariant count == NodeMissing(edges[..k], n, t)
    {
      assert edges[..k + 1][..k] == edges[..k];
      if edges[k] !in other {
        count := count + 1;
      }
    }
    assert edges[..|edges|] == edges;
  }

  /** The counter loop over one graph's nodes against the other graph's
      adjacency: all edges of a node the other graph lacks, else those
      targets the other graph does not list for it. */
  method CountMissing(a: Adjacency, other: Adjacency, ghost g: seq<Edge>, ghost g': seq<Edge>)
    returns (counter: nat)
    requires a == AdjacencyOf(g) && other == AdjacencyOf(g')
    ensures counter == Missing(g, set e | e in g')
  {
    ghost var t' := set e | e in g';
    AdjacencyNodes(g);
    counter := 0;
    for k := 0 to |a.nodes|
      invariant counter == SumNodes(a.nodes[..k], a.cg, t')
    {
      assert a.nodes[..k + 1][..k] == a.nodes[..k];
      var node := a.nodes[k];
      var c := CountNode(a.cg[node], node, other, g', t');
      counter := counter + c;
    }
    assert a.nodes[..|a.nodes|] == a.nodes;
    SumNodesMissing(g, t');
  }

  /** One node of the counter loop. */
  method CountNode(edges: seq<string>, node: string, other: Adjacency, ghost g': seq<Edge>, ghost t': set<Edge>)
    returns (c: nat)
    requires other == AdjacencyOf(g') && t' == set e | e in g'
    ensures c == NodeMissing(edges, node, t')
  {
    AdjacencyTargets(g');
    if node !in other.cg {
      assert forall x :: Edge(node, x) !in t';
      AllAbsent(edges, node, t');
      c := |edges|;
    } else {
      forall x ensures x in other.cg[node] <==> Edge(node, x) in t' {
        TargetsEdges(g', node, x);
      }
      c := CountAbsent(edges, node, other.cg[node], t');
    }
  }

  lemma {:induction false} AllAbsent(edges: seq<string>, n: string, t: set<Edge>)
    requires forall x :: Edge(n, x) !in t
    ensures NodeMissing(edges, n, t) == |edges|
    decreases |edges|
  {
    if edges != [] {
      AllAbsent(edges[..|edges| - 1], n, t);
    }
  }

  /** What `main` prints. */
  datatype Comparison = Comparison(onlyIn1: set<string>, onlyIn2: set<string>, total1: nat, total2: nat,
                                   common: nat, counter1: nat, counter2: nat)

  /** `main(path1, path2)` without a `gnode`. */
  method Compare(data1: CallGraph, data2: CallGraph) returns (r: Comparison)
    ensures forall p :: p in r.onlyIn1 <==> IsDep(data1.depset, p) && !IsDep(data2.depset, p)
    ensures forall p :: p in r.onlyIn2 <==> IsDep(data2.depset, p) && !IsDep(data1.depset, p)
    ensures r.total1 == |set e | e in data1.graph| && r.total2 == |set e | e in data2.graph|
    ensures r.common == |(set e | e in data1.graph) * (set e | e in data2.graph)|
    ensures r.common <= r.total1 && r.common <= r.total2
    ensures r.counter1 == Missing(data1.graph, set e | e in data2.graph)
    ensures r.counter2 == Missing(data2.graph, set e | e in data1.graph)
  {
    var deps1 := Dependencies(data1.depset);
    var deps2 := Dependencies(data2.depset);
    var t1, cg1 := Edges(data1.graph);
    var t2, cg2 := Edges(data2.graph);
    assert t1 == set e | e in data1.graph;
    assert t2 == set e | e in data2.graph;
    var counter1 := CountMissing(cg1, cg2, data1.graph, data2.graph);
    var counter2 := CountMissing(cg2, cg1, data2.graph, data1.graph);
    SubsetCard(t1 * t2, t1);
    SubsetCard(t1 * t2, t2);
    r := Comparison(deps1 - deps2, deps2 - deps1, |t1|, |t2|, |t1 * t2|, counter1, counter2);
  }

  /** A subset is no larger than its superset. */
  lemma {:induction false} SubsetCard(a: set<Edge>, b: set<Edge>)
    requires a <= b
    ensures |a| <= |b|
    decreases |a|
  {
    if a != {} {
      var x :| x in a;
      SubsetCard(a - {x}, b - {x});
    }
  }
}
