/**
The compressed radix tree both caches are built from.

Nodes live in an arena, a map from node identity to record.  Every node holds a
run of tokens, its children keyed by the first token of their runs, its parent,
and a payload `X`: the pins of the tree-keyed cache or the access stamp of the
stock cache.

Two further maps describe the arena and are used in specifications only.
`place` gives the position at which a node's run ends, counted from the root of
its namespace.  `at` gives, for every cached position, the node whose run holds
it.  A split keeps the old object as the tail, so `place` never changes for a
node that survives, and `|at|` is the number of resident tokens.
*/
module RadixForest {

  type Token = int
  type NodeId = nat

  datatype Node<X> = Node(tokens: seq<Token>, children: map<Token, NodeId>, parent: NodeId, data: X)

  datatype Pos = Pos(ns: string, path: seq<Token>)

  datatype Forest<X> = Forest(
    nodes: map<NodeId, Node<X>>,
    roots: map<string, NodeId>,
    place: map<NodeId, Pos>,
    at: map<Pos, NodeId>)

  /******* Invariant *******/

  ghost predicate Rooted<X>(f: Forest<X>) {
    && f.place.Keys == f.nodes.Keys
    && (forall ns | ns in f.roots ::
          f.roots[ns] in f.nodes && f.place[f.roots[ns]] == Pos(ns, []) && f.nodes[f.roots[ns]].tokens == [])
    && (forall n | n in f.nodes && f.place[n].path == [] ::
          f.place[n].ns in f.roots && f.roots[f.place[n].ns] == n)
  }

  /** The run of `n` continues its parent's path, and the parent knows it. */
  ghost predicate EdgeOk<X>(f: Forest<X>, n: NodeId) {
    && n in f.nodes && n in f.place
    && var d := f.nodes[n];
    && d.tokens != []
    && d.parent in f.nodes && d.parent in f.place
    && f.place[n] == Pos(f.place[d.parent].ns, f.place[d.parent].path + d.tokens)
    && d.tokens[0] in f.nodes[d.parent].children
    && f.nodes[d.parent].children[d.tokens[0]] == n
  }

  /** The child of `n` under key `k` is a node whose run starts with `k`. */
  ghost predicate ChildOk<X>(f: Forest<X>, n: NodeId, k: Token) {
    && n in f.nodes && k in f.nodes[n].children
    && var c := f.nodes[n].children[k];
    && c in f.nodes && c in f.place
    && f.place[c].path != []
    && f.nodes[c].parent == n
    && f.nodes[c].tokens != []
    && f.nodes[c].tokens[0] == k
  }

  ghost predicate Linked<X>(f: Forest<X>)
    requires f.place.Keys == f.nodes.Keys
  {
    && (forall n {:trigger EdgeOk(f, n)} | n in f.nodes && f.place[n].path != [] :: EdgeOk(f, n))
    && (forall n, k {:trigger ChildOk(f, n, k)} | n in f.nodes && k in f.nodes[n].children :: ChildOk(f, n, k))
  }

  /** Position `p` lies on the run of node `n`. */
  ghost predicate Covers<X>(f: Forest<X>, n: NodeId, p: Pos) {
    && n in f.nodes && n in f.place
    && p.ns == f.place[n].ns
    && p.path <= f.place[n].path
    && |f.place[n].path| - |f.nodes[n].tokens| < |p.path|
  }

  /** `at` is exactly the covering relation; in particular runs never overlap. */
  ghost predicate Indexed<X>(f: Forest<X>) {
    && (forall p | p in f.at :: f.at[p] in f.nodes)
    && (forall p {:trigger Covers(f, f.at[p], p)} | p in f.at :: p.path != [] && Covers(f, f.at[p], p))
    && (forall n, p {:trigger Covers(f, n, p)} | Covers(f, n, p) :: p in f.at && f.at[p] == n)
  }

  ghost predicate Struct<X>(f: Forest<X>) {
    Rooted(f) && Linked(f) && Indexed(f)
  }

  /** Same nodes, runs, links and roots: only payloads may differ. */
  ghost predicate SameShape<X>(f: Forest<X>, g: Forest<X>) {
    && f.nodes.Keys == g.nodes.Keys && f.roots == g.roots && f.place == g.place && f.at == g.at
    && (forall n | n in f.nodes ::
          && f.nodes[n].tokens == g.nodes[n].tokens
          && f.nodes[n].children == g.nodes[n].children
          && f.nodes[n].parent == g.nodes[n].parent)
  }

  lemma SameShapeStruct<X>(f: Forest<X>, g: Forest<X>)
    requires Struct(f) && SameShape(f, g)
    ensures Struct(g)
  {
    forall n | n in g.nodes && g.place[n].path != [] ensures EdgeOk(g, n) { assert EdgeOk(f, n); }
    forall n, k | n in g.nodes && k in g.nodes[n].children ensures ChildOk(g, n, k) { assert ChildOk(f, n, k); }
    forall n, p | Covers(g, n, p) ensures p in g.at && g.at[p] == n { assert Covers(f, n, p); }
    forall p | p in g.at ensures p.path != [] && Covers(g, g.at[p], p) { assert Covers(f, f.at[p], p); }
  }

  /******* Consequences *******/

  lemma RootAt<X>(f: Forest<X>, ns: string)
    requires Struct(f) && ns in f.roots
    ensures f.place.Keys == f.nodes.Keys
    ensures f.roots[ns] in f.nodes && f.place[f.roots[ns]] == Pos(ns, [])
  {
  }

  lemma EdgeAt<X>(f: Forest<X>, n: NodeId)
    requires Struct(f) && n in f.nodes
    ensures f.place.Keys == f.nodes.Keys
    ensures f.place[n].path != [] ==> EdgeOk(f, n)
  {
  }

  lemma ChildLink<X>(f: Forest<X>, n: NodeId, k: Token)
    requires Struct(f) && n in f.nodes && k in f.nodes[n].children
    ensures f.place.Keys == f.nodes.Keys
    ensures ChildOk(f, n, k) && EdgeOk(f, f.nodes[n].children[k])
  {
    assert ChildOk(f, n, k);
    assert EdgeOk(f, f.nodes[n].children[k]);
  }

  /** A position determines the node that ends there. */
  lemma PlaceInjective<X>(f: Forest<X>, m: NodeId, n: NodeId)
    requires Struct(f) && m in f.nodes && n in f.nodes && f.place[m] == f.place[n]
    ensures m == n
  {
    if f.place[m].path != [] {
      assert EdgeOk(f, m) && EdgeOk(f, n);
      assert Covers(f, m, f.place[m]) && Covers(f, n, f.place[m]);
    }
  }

  /** Any node whose run covers the position just below `n` is a child of `n`. */
  lemma ChildAt<X>(f: Forest<X>, n: NodeId, k: Token)
    requires Struct(f) && n in f.nodes
    ensures var p := Pos(f.place[n].ns, f.place[n].path + [k]);
            && (p in f.at <==> k in f.nodes[n].children)
            && (p in f.at ==> f.at[p] == f.nodes[n].children[k])
  {
    var path := f.place[n].path;
    var p := Pos(f.place[n].ns, path + [k]);
    if k in f.nodes[n].children {
      assert ChildOk(f, n, k);
      var c := f.nodes[n].children[k];
      assert EdgeOk(f, c);
      assert Covers(f, c, p);
    }
    if p in f.at {
      var c := f.at[p];
      assert Covers(f, c, p);
      assert f.place[c].path != [];
      assert EdgeOk(f, c);
      var m := f.nodes[c].parent;
      assert f.place[c].path == f.place[m].path + f.nodes[c].tokens;
      assert path + [k] == f.place[c].path[..|path| + 1];
      assert f.place[m].path == f.place[c].path[..|f.place[m].path|];
      assert path == f.place[c].path[..|path|] by {
        assert (path + [k])[..|path|] == path;
      }
      if |f.place[m].path| < |path| {
        assert Covers(f, c, f.place[n]);
        assert EdgeOk(f, n);
        assert Covers(f, n, f.place[n]);
        assert false;
      }
      assert f.place[m].path == path;
      PlaceInjective(f, m, n);
      assert f.nodes[c].tokens[0] == f.place[c].path[|path|] == k;
    }
  }

  /** Everything above a node is cached, on runs that end on the node's path. */
  lemma {:induction false} Ancestors<X>(f: Forest<X>, n: NodeId, i: nat)
    requires Struct(f) && n in f.nodes && 0 < i <= |f.place[n].path|
    ensures var p := Pos(f.place[n].ns, f.place[n].path[..i]);
            p in f.at && f.place[f.at[p]].path <= f.place[n].path
    decreases |f.place[n].path|
  {
    assert EdgeOk(f, n);
    var p := Pos(f.place[n].ns, f.place[n].path[..i]);
    var m := f.nodes[n].parent;
    if |f.place[m].path| < i {
      assert Covers(f, n, p);
    } else {
      assert f.place[m].path[..i] == f.place[n].path[..i];
      Ancestors(f, m, i);
    }
  }

  /** The cached set is closed under non-empty prefixes. */
  lemma PrefixClosed<X>(f: Forest<X>, p: Pos, i: nat)
    requires Struct(f) && p in f.at && 0 < i <= |p.path|
    ensures Pos(p.ns, p.path[..i]) in f.at
  {
    var n := f.at[p];
    assert Covers(f, n, p);
    assert p.path[..i] == f.place[n].path[..i];
    Ancestors(f, n, i);
  }

  lemma SomeKey(m: map<Token, NodeId>)
    requires m.Keys != {}
    ensures exists k: Token :: k in m
  {
    if forall k: Token :: k !in m {
      assert false;
    }
  }

  /** Below every node there is a leaf. */
  lemma {:induction false} LeafBelow<X>(f: Forest<X>, n: NodeId, bound: nat) returns (leaf: NodeId)
    requires Struct(f) && n in f.nodes
    requires forall m | m in f.nodes :: |f.place[m].path| <= bound
    ensures leaf in f.nodes && f.nodes[leaf].children.Keys == {} && f.place[n].path <= f.place[leaf].path
    ensures f.place[leaf].ns == f.place[n].ns
    decreases bound - |f.place[n].path|
  {
    if f.nodes[n].children.Keys == {} {
      leaf := n;
    } else {
      SomeKey(f.nodes[n].children);
      var k: Token :| k in f.nodes[n].children;
      assert ChildOk(f, n, k);
      var c := f.nodes[n].children[k];
      assert EdgeOk(f, c);
      leaf := LeafBelow(f, c, bound);
    }
  }

  lemma {:induction false} PathBound<X>(f: Forest<X>, keys: set<NodeId>) returns (bound: nat)
    requires f.place.Keys == f.nodes.Keys && keys <= f.nodes.Keys
    ensures forall m | m in keys :: |f.place[m].path| <= bound
    decreases keys
  {
    if keys == {} {
      bound := 0;
    } else {
      var k :| k in keys;
      var b := PathBound(f, keys - {k});
      bound := if b < |f.place[k].path| then |f.place[k].path| else b;
    }
  }

  /******* Sets of positions *******/

  /** The positions of `path` after the first `lo` tokens, up to the first `hi`. */
  ghost function Segment(ns: string, path: seq<Token>, lo: nat, hi: nat): set<Pos>
    requires lo <= hi <= |path|
  {
    set i | lo < i <= hi :: Pos(ns, path[..i])
  }

  lemma {:induction false} SegmentSize(ns: string, path: seq<Token>, lo: nat, hi: nat)
    requires lo <= hi <= |path|
    ensures |Segment(ns, path, lo, hi)| == hi - lo
    decreases hi
  {
    if lo == hi {
      assert Segment(ns, path, lo, hi) == {};
    } else {
      SegmentSize(ns, path, lo, hi - 1);
      var last := Pos(ns, path[..hi]);
      assert Segment(ns, path, lo, hi) == Segment(ns, path, lo, hi - 1) + {last};
      assert last !in Segment(ns, path, lo, hi - 1) by {
        forall i | lo < i <= hi - 1 ensures path[..i] != path[..hi] { assert |path[..i]| != |path[..hi]|; }
      }
    }
  }

  /** Length of the longest non-empty prefix of `query` among the cached positions. */
  ghost function LongestIn(cached: set<Pos>, ns: string, query: seq<Token>): (r: nat)
    ensures r <= |query|
    ensures 0 < r ==> Pos(ns, query[..r]) in cached
  {
    if query == [] then 0
    else if Pos(ns, query) in cached then assert query[..|query|] == query; |query|
    else
      var shorter := query[..|query| - 1];
      var r := LongestIn(cached, ns, shorter);
      assert query[..r] == shorter[..r];
      r
  }

  /** No longer prefix of `query` is cached. */
  lemma {:induction false} LongestInMax(cached: set<Pos>, ns: string, query: seq<Token>, i: nat)
    requires LongestIn(cached, ns, query) < i <= |query|
    ensures Pos(ns, query[..i]) !in cached
    decreases |query|
  {
    assert query[..|query|] == query;
    if i < |query| {
      var shorter := query[..|query| - 1];
      LongestInMax(cached, ns, shorter, i);
      assert shorter[..i] == query[..i];
    }
  }

  ghost predicate Closed(cached: set<Pos>) {
    forall p, i: nat | p in cached && 0 < i <= |p.path| :: Pos(p.ns, p.path[..i]) in cached
  }

  /** One cached prefix and the absence of the next pin the longest match down. */
  lemma {:induction false} LongestInIs(cached: set<Pos>, ns: string, query: seq<Token>, r: nat)
    requires Closed(cached) && r <= |query|
    requires 0 < r ==> Pos(ns, query[..r]) in cached
    requires r < |query| ==> Pos(ns, query[..r + 1]) !in cached
    ensures LongestIn(cached, ns, query) == r
    decreases |query|
  {
    if r == |query| {
      assert query[..r] == query;
    } else {
      assert Pos(ns, query).path[..r + 1] == query[..r + 1];
      var shorter := query[..|query| - 1];
      assert shorter[..r] == query[..r];
      if r < |shorter| { assert shorter[..r + 1] == query[..r + 1]; }
      LongestInIs(cached, ns, shorter, r);
    }
  }

  lemma AtClosed<X>(f: Forest<X>)
    requires Struct(f)
    ensures Closed(f.at.Keys)
  {
    forall p, i: nat | p in f.at.Keys && 0 < i <= |p.path| ensures Pos(p.ns, p.path[..i]) in f.at.Keys {
      PrefixClosed(f, p, i);
    }
  }

  /** The positions on the run of `n`. */
  ghost function Run<X>(f: Forest<X>, n: NodeId): set<Pos>
    requires Struct(f) && n in f.nodes
  {
    set p | p in f.at && f.at[p] == n
  }

  lemma RunIsSegment<X>(f: Forest<X>, n: NodeId)
    requires Struct(f) && n in f.nodes
    ensures |f.nodes[n].tokens| <= |f.place[n].path|
    ensures Run(f, n) == Segment(f.place[n].ns, f.place[n].path,
                                 |f.place[n].path| - |f.nodes[n].tokens|, |f.place[n].path|)
    ensures |Run(f, n)| == |f.nodes[n].tokens|
  {
    var path := f.place[n].path;
    if path != [] { assert EdgeOk(f, n); }
    var lo := |path| - |f.nodes[n].tokens|;
    var seg := Segment(f.place[n].ns, path, lo, |path|);
    forall p | p in seg ensures p in Run(f, n) {
      assert Covers(f, n, p);
    }
    forall p | p in Run(f, n) ensures p in seg {
      assert Covers(f, n, p);
      assert p.path == path[..|p.path|];
    }
    SegmentSize(f.place[n].ns, path, lo, |path|);
  }

  /******* Updates *******/

  /** Replace the payload of one node. */
  ghost function SetData<X>(f: Forest<X>, n: NodeId, data: X): (g: Forest<X>)
    requires n in f.nodes
    ensures SameShape(f, g)
  {
    f.(nodes := f.nodes[n := f.nodes[n].(data := data)])
  }

  function SplitNodes<X>(nodes: map<NodeId, Node<X>>, n: NodeId, k: nat, head: NodeId): map<NodeId, Node<X>>
    requires n in nodes && nodes[n].parent in nodes && 0 < k < |nodes[n].tokens|
  {
    var d := nodes[n];
    var up := nodes[d.parent];
    nodes[head := Node(d.tokens[..k], map[d.tokens[k] := n], d.parent, d.data)]
         [d.parent := up.(children := up.children[d.tokens[0] := head])]
         [n := d.(tokens := d.tokens[k..], parent := head)]
  }

  /** `_split`: a fresh head takes the first `k` tokens, the old object keeps the tail. */
  ghost function Split<X>(f: Forest<X>, n: NodeId, k: nat, head: NodeId): (g: Forest<X>)
    requires Struct(f) && n in f.nodes && f.place[n].path != [] && 0 < k < |f.nodes[n].tokens|
  {
    var d := f.nodes[n];
    assert EdgeOk(f, n);
    var start := |f.place[d.parent].path|;
    Forest(
      SplitNodes(f.nodes, n, k, head),
      f.roots,
      f.place[head := Pos(f.place[n].ns, f.place[n].path[..start + k])],
      map p | p in f.at :: if f.at[p] == n && |p.path| <= start + k then head else f.at[p])
  }

  lemma SplitEdge<X>(f: Forest<X>, n: NodeId, k: nat, head: NodeId, m: NodeId)
    requires Struct(f) && n in f.nodes && f.place[n].path != [] && 0 < k < |f.nodes[n].tokens|
    requires head !in f.nodes
    requires m == head || (m in f.nodes && f.place[m].path != [])
    ensures EdgeOk(Split(f, n, k, head), m)
  {
    assert EdgeOk(f, n);
    var d := f.nodes[n];
    var start := |f.place[d.parent].path|;
    assert f.place[n].path[..start + k] == f.place[d.parent].path + d.tokens[..k];
    assert f.place[n].path == f.place[n].path[..start + k] + d.tokens[k..];
    assert d.parent != n;
    if m != head && m != n {
      assert EdgeOk(f, m);
    }
  }

  lemma SplitChild<X>(f: Forest<X>, n: NodeId, k: nat, head: NodeId, m: NodeId, j: Token)
    requires Struct(f) && n in f.nodes && f.place[n].path != [] && 0 < k < |f.nodes[n].tokens|
    requires head !in f.nodes
    requires m in Split(f, n, k, head).nodes && j in Split(f, n, k, head).nodes[m].children
    ensures ChildOk(Split(f, n, k, head), m, j)
  {
    assert EdgeOk(f, n);
    var d := f.nodes[n];
    if m != head && !(m == d.parent && j == d.tokens[0]) {
      assert ChildOk(f, m, j);
      assert f.nodes[m].children[j] != n;
    }
  }

  lemma SplitLinks<X>(f: Forest<X>, n: NodeId, k: nat, head: NodeId)
    requires Struct(f) && n in f.nodes && f.place[n].path != [] && 0 < k < |f.nodes[n].tokens|
    requires head !in f.nodes
    ensures var g := Split(f, n, k, head); Rooted(g) && Linked(g)
  {
    var g := Split(f, n, k, head);
    assert EdgeOk(f, n);
    forall m | m in g.nodes && g.place[m].path != [] ensures EdgeOk(g, m) { SplitEdge(f, n, k, head, m); }
    forall m, j | m in g.nodes && j in g.nodes[m].children ensures ChildOk(g, m, j) { SplitChild(f, n, k, head, m, j); }
  }

  /** A split keeps the invariant and the set of cached positions. */
  lemma SplitStruct<X>(f: Forest<X>, n: NodeId, k: nat, head: NodeId)
    requires Struct(f) && n in f.nodes && f.place[n].path != [] && 0 < k < |f.nodes[n].tokens|
    requires head !in f.nodes
    ensures var g := Split(f, n, k, head);
            Struct(g) && g.at.Keys == f.at.Keys && g.roots == f.roots
  {
    var g := Split(f, n, k, head);
    SplitLinks(f, n, k, head);
    assert EdgeOk(f, n);
    var d := f.nodes[n];
    var start := |f.place[d.parent].path|;
    forall m, p | Covers(g, m, p) ensures p in g.at && g.at[p] == m {
      if m == head {
        assert p.path <= f.place[n].path;
        assert Covers(f, n, p);
      } else {
        assert Covers(f, m, p);
      }
    }
    forall p | p in g.at ensures p.path != [] && Covers(g, g.at[p], p) {
      assert Covers(f, f.at[p], p);
      if g.at[p] == head {
        assert p.path == f.place[n].path[..|p.path|] == g.place[head].path[..|p.path|];
      }
    }
  }

  function GraftNodes<X>(nodes: map<NodeId, Node<X>>, n: NodeId, run: seq<Token>, leaf: NodeId, data: X): map<NodeId, Node<X>>
    requires n in nodes && run != []
  {
    var up := nodes[n];
    nodes[n := up.(children := up.children[run[0] := leaf])][leaf := Node(run, map[], n, data)]
  }

  /** Attach a fresh leaf holding `run` below `n`. */
  ghost function AddLeaf<X>(f: Forest<X>, n: NodeId, run: seq<Token>, leaf: NodeId, data: X): (g: Forest<X>)
    requires Struct(f) && n in f.nodes && run != []
  {
    var ns := f.place[n].ns;
    var path := f.place[n].path + run;
    Forest(
      GraftNodes(f.nodes, n, run, leaf, data),
      f.roots,
      f.place[leaf := Pos(ns, path)],
      map p | p in f.at.Keys + Segment(ns, path, |path| - |run|, |path|) :: if p in f.at then f.at[p] else leaf)
  }

  lemma AddLeafEdge<X>(f: Forest<X>, n: NodeId, run: seq<Token>, leaf: NodeId, data: X, m: NodeId)
    requires Struct(f) && n in f.nodes && run != [] && leaf !in f.nodes
    requires run[0] !in f.nodes[n].children
    requires m == leaf || (m in f.nodes && f.place[m].path != [])
    ensures EdgeOk(AddLeaf(f, n, run, leaf, data), m)
  {
    if m != leaf { assert EdgeOk(f, m); }
  }

  lemma AddLeafChild<X>(f: Forest<X>, n: NodeId, run: seq<Token>, leaf: NodeId, data: X, m: NodeId, j: Token)
    requires Struct(f) && n in f.nodes && run != [] && leaf !in f.nodes
    requires run[0] !in f.nodes[n].children
    requires m in AddLeaf(f, n, run, leaf, data).nodes && j in AddLeaf(f, n, run, leaf, data).nodes[m].children
    ensures ChildOk(AddLeaf(f, n, run, leaf, data), m, j)
  {
    if !(m == n && j == run[0]) { assert ChildOk(f, m, j); }
  }

  lemma AddLeafLinks<X>(f: Forest<X>, n: NodeId, run: seq<Token>, leaf: NodeId, data: X)
    requires Struct(f) && n in f.nodes && run != [] && leaf !in f.nodes
    requires run[0] !in f.nodes[n].children
    ensures var g := AddLeaf(f, n, run, leaf, data); Rooted(g) && Linked(g)
  {
    var g := AddLeaf(f, n, run, leaf, data);
    forall m | m in g.nodes && g.place[m].path != [] ensures EdgeOk(g, m) { AddLeafEdge(f, n, run, leaf, data, m); }
    forall m, j | m in g.nodes && j in g.nodes[m].children ensures ChildOk(g, m, j) { AddLeafChild(f, n, run, leaf, data, m, j); }
  }

  lemma AddLeafIndex<X>(f: Forest<X>, n: NodeId, run: seq<Token>, leaf: NodeId, data: X)
    requires Struct(f) && n in f.nodes && run != [] && leaf !in f.nodes
    requires run[0] !in f.nodes[n].children
    ensures Indexed(AddLeaf(f, n, run, leaf, data))
  {
    var g := AddLeaf(f, n, run, leaf, data);
    var base := f.place[n].path;
    var path := base + run;
    forall m, p | Covers(g, m, p) ensures p in g.at && g.at[p] == m {
      if m == leaf {
        assert p.path == path[..|p.path|];
        AddLeafFresh(f, n, run, p);
      } else {
        assert Covers(f, m, p);
      }
    }
    forall p | p in g.at ensures p.path != [] && Covers(g, g.at[p], p) {
      if p in f.at { assert Covers(f, f.at[p], p); }
    }
  }

  lemma AddLeafFresh<X>(f: Forest<X>, n: NodeId, run: seq<Token>, p: Pos)
    requires Struct(f) && n in f.nodes && run != [] && run[0] !in f.nodes[n].children
    requires p.ns == f.place[n].ns && p.path <= f.place[n].path + run && |f.place[n].path| < |p.path|
    ensures p !in f.at
  {
    var base := f.place[n].path;
    ChildAt(f, n, run[0]);
    if p in f.at {
      assert p.path[..|base| + 1] == base + [run[0]];
      PrefixClosed(f, p, |base| + 1);
    }
  }

  /** A new leaf adds exactly the positions of its run. */
  lemma AddLeafStruct<X>(f: Forest<X>, n: NodeId, run: seq<Token>, leaf: NodeId, data: X)
    requires Struct(f) && n in f.nodes && run != [] && leaf !in f.nodes
    requires run[0] !in f.nodes[n].children
    ensures var g := AddLeaf(f, n, run, leaf, data);
            var path := f.place[n].path + run;
            var seg := Segment(f.place[n].ns, path, |f.place[n].path|, |path|);
            && Struct(g)
            && seg !! f.at.Keys && g.at.Keys == f.at.Keys + seg
            && |g.at| == |f.at| + |run|
            && g.roots == f.roots
  {
    var g := AddLeaf(f, n, run, leaf, data);
    var base := f.place[n].path;
    var path := base + run;
    var seg := Segment(f.place[n].ns, path, |base|, |path|);
    forall p | p in seg ensures p !in f.at { AddLeafFresh(f, n, run, p); }
    SegmentSize(f.place[n].ns, path, |base|, |path|);
    assert g.at.Keys == f.at.Keys + seg;
    assert |g.at.Keys| == |f.at.Keys| + |seg|;
    AddLeafLinks(f, n, run, leaf, data);
    AddLeafIndex(f, n, run, leaf, data);
  }

  function DetachNodes<X>(nodes: map<NodeId, Node<X>>, n: NodeId): map<NodeId, Node<X>>
    requires n in nodes && nodes[n].parent in nodes && nodes[n].tokens != []
  {
    var d := nodes[n];
    var up := nodes[d.parent];
    (nodes - {n})[d.parent := up.(children := up.children - {d.tokens[0]})]
  }

  /** Detach a leaf. */
  ghost function RemoveLeaf<X>(f: Forest<X>, n: NodeId): (g: Forest<X>)
    requires Struct(f) && n in f.nodes && f.place[n].path != []
  {
    assert EdgeOk(f, n);
    Forest(
      DetachNodes(f.nodes, n),
      f.roots,
      f.place - {n},
      f.at - Run(f, n))
  }

  lemma RemoveLeafEdge<X>(f: Forest<X>, n: NodeId, m: NodeId)
    requires Struct(f) && n in f.nodes && f.place[n].path != [] && f.nodes[n].children.Keys == {}
    requires m in f.nodes && m != n && f.place[m].path != []
    ensures EdgeOk(RemoveLeaf(f, n), m)
  {
    assert EdgeOk(f, n) && EdgeOk(f, m);
    assert f.nodes[m].tokens[0] in f.nodes[f.nodes[m].parent].children.Keys;
    assert f.nodes[n].parent != n;
  }

  lemma RemoveLeafChild<X>(f: Forest<X>, n: NodeId, m: NodeId, j: Token)
    requires Struct(f) && n in f.nodes && f.place[n].path != [] && f.nodes[n].children.Keys == {}
    requires m in RemoveLeaf(f, n).nodes && j in RemoveLeaf(f, n).nodes[m].children
    ensures ChildOk(RemoveLeaf(f, n), m, j)
  {
    assert EdgeOk(f, n);
    assert f.nodes[n].parent != n;
    assert ChildOk(f, m, j);
    assert f.nodes[m].children[j] != n;
  }

  lemma RemoveLeafLinks<X>(f: Forest<X>, n: NodeId)
    requires Struct(f) && n in f.nodes && f.place[n].path != [] && f.nodes[n].children.Keys == {}
    ensures var g := RemoveLeaf(f, n); Rooted(g) && Linked(g)
  {
    var g := RemoveLeaf(f, n);
    assert EdgeOk(f, n);
    assert f.nodes[n].parent != n;
    forall m | m in g.nodes && g.place[m].path != [] ensures EdgeOk(g, m) { RemoveLeafEdge(f, n, m); }
    forall m, j | m in g.nodes && j in g.nodes[m].children ensures ChildOk(g, m, j) { RemoveLeafChild(f, n, m, j); }
  }

  lemma RemoveLeafStruct<X>(f: Forest<X>, n: NodeId)
    requires Struct(f) && n in f.nodes && f.place[n].path != [] && f.nodes[n].children.Keys == {}
    ensures var g := RemoveLeaf(f, n);
            && Struct(g)
            && g.at.Keys == f.at.Keys - Run(f, n)
            && |g.at| == |f.at| - |f.nodes[n].tokens|
            && g.nodes.Keys == f.nodes.Keys - {n}
            && g.roots == f.roots
  {
    var g := RemoveLeaf(f, n);
    assert EdgeOk(f, n);
    var d := f.nodes[n];
    RunIsSegment(f, n);
    assert Run(f, n) <= f.at.Keys;
    assert |g.at.Keys| == |f.at.Keys| - |Run(f, n)|;
    RemoveLeafLinks(f, n);
    forall m, p | Covers(g, m, p) ensures p in g.at && g.at[p] == m { assert Covers(f, m, p); }
    forall p | p in g.at ensures p.path != [] && Covers(g, g.at[p], p) { assert Covers(f, f.at[p], p); }
  }

  /** A payload change on the node itself does not show once it is gone. */
  lemma DetachForgets<X>(nodes: map<NodeId, Node<X>>, n: NodeId, data: X)
    requires n in nodes && nodes[n].parent in nodes && nodes[n].tokens != [] && nodes[n].parent != n
    ensures DetachNodes(nodes[n := nodes[n].(data := data)], n) == DetachNodes(nodes, n)
  {
  }

  /** A fresh, empty namespace. */
  ghost function AddRoot<X>(f: Forest<X>, ns: string, root: NodeId, parent: NodeId, data: X): (g: Forest<X>) {
    Forest(f.nodes[root := Node([], map[], parent, data)], f.roots[ns := root], f.place[root := Pos(ns, [])], f.at)
  }

  lemma AddRootAt<X>(f: Forest<X>, ns: string, root: NodeId, parent: NodeId, data: X, m: NodeId)
    requires Struct(f) && ns !in f.roots && root !in f.nodes && m in f.nodes
    ensures var g := AddRoot(f, ns, root, parent, data);
            && (f.place[m].path != [] ==> EdgeOk(g, m))
            && (forall j | j in f.nodes[m].children :: ChildOk(g, m, j))
  {
    hide Indexed, Rooted;
    EdgeAt(f, m);
    var g := AddRoot(f, ns, root, parent, data);
    forall j | j in f.nodes[m].children ensures ChildOk(g, m, j) { assert ChildOk(f, m, j); }
  }

  lemma AddRootRooted<X>(f: Forest<X>, ns: string, root: NodeId, parent: NodeId, data: X)
    requires Struct(f) && ns !in f.roots && root !in f.nodes
    ensures Rooted(AddRoot(f, ns, root, parent, data))
  {
    hide Indexed, Linked;
  }

  lemma AddRootLinks<X>(f: Forest<X>, ns: string, root: NodeId, parent: NodeId, data: X)
    requires Struct(f) && ns !in f.roots && root !in f.nodes
    ensures var g := AddRoot(f, ns, root, parent, data); Rooted(g) && Linked(g)
  {
    AddRootRooted(f, ns, root, parent, data);
    hide Indexed, Linked, EdgeOk, ChildOk, Rooted;
    var g := AddRoot(f, ns, root, parent, data);
    forall m | m in g.nodes && g.place[m].path != [] ensures EdgeOk(g, m) { AddRootAt(f, ns, root, parent, data, m); }
    forall m, j | m in g.nodes && j in g.nodes[m].children ensures ChildOk(g, m, j) { AddRootAt(f, ns, root, parent, data, m); }
    LinkedIs(g);
  }

  lemma LinkedIs<X>(g: Forest<X>)
    requires g.place.Keys == g.nodes.Keys
    requires forall m | m in g.nodes && g.place[m].path != [] :: EdgeOk(g, m)
    requires forall m, j | m in g.nodes && j in g.nodes[m].children :: ChildOk(g, m, j)
    ensures Linked(g)
  {
  }

  lemma AddRootStruct<X>(f: Forest<X>, ns: string, root: NodeId, parent: NodeId, data: X)
    requires Struct(f) && ns !in f.roots && root !in f.nodes
    ensures Struct(AddRoot(f, ns, root, parent, data))
  {
    var g := AddRoot(f, ns, root, parent, data);
    AddRootLinks(f, ns, root, parent, data);
    forall m, p | Covers(g, m, p) ensures p in g.at && g.at[p] == m { assert Covers(f, m, p); }
    forall p | p in g.at ensures p.path != [] && Covers(g, g.at[p], p) { assert Covers(f, f.at[p], p); }
  }

  /** Drop an emptied namespace. */
  ghost function RemoveRoot<X>(f: Forest<X>, ns: string): (g: Forest<X>)
    requires ns in f.roots
  {
    Forest(f.nodes - {f.roots[ns]}, f.roots - {ns}, f.place - {f.roots[ns]}, f.at)
  }

  lemma RemoveRootStruct<X>(f: Forest<X>, ns: string)
    requires Struct(f) && ns in f.roots && forall p | p in f.at :: p.ns != ns
    ensures Struct(RemoveRoot(f, ns))
    ensures forall n | n in f.nodes :: f.place[n].ns == ns <==> n == f.roots[ns]
  {
    var g := RemoveRoot(f, ns);
    var r := f.roots[ns];
    forall n | n in f.nodes && f.place[n].path != [] ensures f.place[n].ns != ns {
      assert EdgeOk(f, n);
      assert Covers(f, n, f.place[n]);
    }
    forall m | m in g.nodes && g.place[m].path != [] ensures EdgeOk(g, m) {
      assert EdgeOk(f, m);
      assert f.nodes[m].parent != r;
    }
    forall m, j | m in g.nodes && j in g.nodes[m].children ensures ChildOk(g, m, j) { assert ChildOk(f, m, j); }
    forall m, p | Covers(g, m, p) ensures p in g.at && g.at[p] == m { assert Covers(f, m, p); }
    forall p | p in g.at ensures p.path != [] && Covers(g, g.at[p], p) { assert Covers(f, f.at[p], p); }
  }

  /******* Lookup *******/

  /** The inner loop of a lookup: how far a run agrees with the query. */
  method CommonPrefix(run: seq<Token>, query: seq<Token>, from: nat) returns (common: nat)
    requires from < |query| && run != [] && run[0] == query[from]
    requires from + |run| > |query| || query[from..from + |run|] != run
    ensures 0 < common < |run| && from + common <= |query|
    ensures run[..common] == query[from..from + common]
    ensures from + common < |query| ==> run[common] != query[from + common]
  {
    common := 0;
    while common < |run| && from + common < |query| && run[common] == query[from + common]
      invariant common <= |run| && from + common <= |query|
      invariant run[..common] == query[from..from + common]
    {
      assert run[..common + 1] == run[..common] + [run[common]];
      assert query[from..from + common + 1] == query[from..from + common] + [query[from + common]];
      common := common + 1;
    }
    assert run[..|run|] == run;
  }
}
