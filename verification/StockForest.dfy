/**
The arena of the stock prefix cache: one namespace, and on every node the
logical time of its last use.  These lemmas say what a lookup, an eviction and
an insertion do to the order of use.
*/
module StockForest {
  import opened RadixForest
  import opened BranchTrie

  const NS := ""

  type Stamped = Forest<int>

  ghost predicate Proper(f: Stamped, n: NodeId) {
    n in f.nodes && n in f.place && f.place[n].path != []
  }

  predicate Comparable(p: Pos, q: Pos) {
    Above(p, q) || Above(q, p)
  }

  /** Time stamps never run ahead, and equal stamps lie on one path, so among the
      leaves the least recently used one is unique. */
  ghost predicate Ordered(f: Stamped, now: int) {
    && (forall n {:trigger Proper(f, n)} | Proper(f, n) :: f.nodes[n].data <= now)
    && (forall m, n {:trigger Proper(f, m), Proper(f, n)} | Proper(f, m) && Proper(f, n) && f.nodes[m].data == f.nodes[n].data ::
          Comparable(f.place[m], f.place[n]))
  }

  /** Exactly the nodes on the way to `q` carry the stamp `now`. */
  ghost predicate Latest(f: Stamped, now: int, q: Pos) {
    forall n {:trigger Proper(f, n)} | Proper(f, n) :: f.nodes[n].data == now <==> Above(f.place[n], q)
  }

  ghost predicate SingleSpace(f: Stamped) {
    && f.place.Keys == f.nodes.Keys
    && f.roots.Keys == {NS}
    && forall n | n in f.nodes :: f.place[n].ns == NS
  }

  ghost predicate StockOk(f: Stamped, now: int) {
    Struct(f) && SingleSpace(f) && Ordered(f, now)
  }

  /** A node ends exactly at `q`. */
  ghost predicate Boundary(f: Stamped, q: Pos) {
    q in f.at && f.at[q] in f.place && f.place[f.at[q]] == q
  }

  lemma NodeIsBoundary(f: Stamped, n: NodeId)
    requires Struct(f) && Proper(f, n)
    ensures Boundary(f, f.place[n]) && f.at[f.place[n]] == n
  {
    assert EdgeOk(f, n);
    assert Covers(f, n, f.place[n]);
  }

  /** A boundary names the node that ends there. */
  lemma BoundaryNode(f: Stamped, q: Pos)
    requires Struct(f) && Boundary(f, q)
    ensures Proper(f, f.at[q]) && q.path != []
  {
    assert Covers(f, f.at[q], q);
  }

  lemma StockDomain(f: Stamped, now: int)
    requires StockOk(f, now)
    ensures f.place.Keys == f.nodes.Keys && NS in f.roots && f.roots[NS] in f.nodes && f.place[f.roots[NS]] == Pos(NS, [])
    ensures Struct(f)
  {
    RootAt(f, NS);
  }

  /******* Lookup *******/

  lemma SplitOrdered(f: Stamped, now: int, n: NodeId, k: nat, head: NodeId)
    requires StockOk(f, now) && Proper(f, n) && 0 < k < |f.nodes[n].tokens| && head !in f.nodes
    ensures StockOk(Split(f, n, k, head), now)
  {
    var g := Split(f, n, k, head);
    SplitStruct(f, n, k, head);
    assert EdgeOk(f, n);
    assert g.place[head].path <= f.place[n].path;
    forall m | Proper(g, m) ensures g.nodes[m].data <= now {
      assert Proper(f, if m == head then n else m);
    }
    forall a, b | Proper(g, a) && Proper(g, b) && g.nodes[a].data == g.nodes[b].data
      ensures Comparable(g.place[a], g.place[b])
    {
      var a', b' := if a == head then n else a, if b == head then n else b;
      assert Proper(f, a') && Proper(f, b');
      assert Comparable(f.place[a'], f.place[b']);
      PrefixesCompare(g.place[a], f.place[a'], g.place[b], f.place[b']);
    }
  }

  lemma PrefixesCompare(a: Pos, a': Pos, b: Pos, b': Pos)
    requires Above(a, a') && Above(b, b') && Comparable(a', b')
    ensures Comparable(a, b)
  {
    var top := if |a'.path| <= |b'.path| then b'.path else a'.path;
    assert a'.path <= top && b'.path <= top;
    assert a.path == top[..|a.path|] && b.path == top[..|b.path|];
  }

  /** Splitting a node beyond the touched path leaves the touched path as it was. */
  lemma SplitLatest(f: Stamped, now: int, q: Pos, n: NodeId, k: nat, head: NodeId)
    requires Struct(f) && Latest(f, now, q) && Proper(f, n) && 0 < k < |f.nodes[n].tokens| && head !in f.nodes
    requires f.nodes[n].parent in f.place && f.place[f.nodes[n].parent] == q
    ensures Latest(Split(f, n, k, head), now, q)
  {
    var g := Split(f, n, k, head);
    assert EdgeOk(f, n);
    forall m | Proper(g, m) ensures g.nodes[m].data == now <==> Above(g.place[m], q) {
      assert Proper(f, if m == head then n else m);
    }
  }

  /** Touching the next node of the path moves the front of the touched path to its end. */
  lemma TouchLatest(f: Stamped, now: int, q: Pos, n: NodeId)
    requires Struct(f) && Latest(f, now, q) && Proper(f, n)
    requires f.nodes[n].parent in f.place && f.place[f.nodes[n].parent] == q
    ensures Latest(SetData(f, n, now), now, f.place[n])
  {
    var g := SetData(f, n, now);
    assert EdgeOk(f, n);
    forall m | Proper(g, m) ensures g.nodes[m].data == now <==> Above(g.place[m], f.place[n]) {
      assert Proper(f, m);
      if m != n && Above(f.place[m], f.place[n]) && !Above(f.place[m], q) {
        assert f.place[m].path == f.place[n].path[..|f.place[m].path|];
        assert q.path == f.place[n].path[..|q.path|];
        assert EdgeOk(f, m);
        assert Covers(f, n, f.place[m]) && Covers(f, m, f.place[m]);
        assert false;
      }
    }
  }

  lemma TouchOrdered(f: Stamped, now: int, q: Pos, n: NodeId)
    requires StockOk(f, now) && Latest(f, now, q) && Proper(f, n)
    requires f.nodes[n].parent in f.place && f.place[f.nodes[n].parent] == q
    ensures StockOk(SetData(f, n, now), now)
  {
    var g := SetData(f, n, now);
    SameShapeStruct(f, g);
    TouchLatest(f, now, q, n);
    forall m | Proper(g, m) ensures g.nodes[m].data <= now { assert Proper(f, m); }
    forall a, b | Proper(g, a) && Proper(g, b) && g.nodes[a].data == g.nodes[b].data
      ensures Comparable(g.place[a], g.place[b])
    {
      assert Proper(f, a) && Proper(f, b);
      if g.nodes[a].data == now {
        PrefixesCompare(g.place[a], f.place[n], g.place[b], f.place[n]);
      }
    }
  }

  /******* Eviction *******/

  ghost function Leaves(f: Stamped): set<NodeId> {
    set n | n in f.nodes && Proper(f, n) && f.nodes[n].children.Keys == {}
  }

  /** The leaf least recently used. */
  ghost predicate Victim(f: Stamped, v: NodeId) {
    v in Leaves(f) && forall n | n in Leaves(f) :: f.nodes[v].data <= f.nodes[n].data
  }

  /** LRU order has no ties among leaves. */
  lemma VictimUnique(f: Stamped, now: int, v: NodeId, w: NodeId)
    requires StockOk(f, now) && Victim(f, v) && Victim(f, w)
    ensures v == w
  {
    assert Proper(f, v) && Proper(f, w);
    assert Comparable(f.place[v], f.place[w]);
    if v != w {
      if Above(f.place[v], f.place[w]) { LeafEnds(f, v, w); } else { LeafEnds(f, w, v); }
      assert false;
    }
  }

  /** Nothing lies below a leaf. */
  lemma LeafEnds(f: Stamped, v: NodeId, w: NodeId)
    requires Struct(f) && v in f.nodes && f.nodes[v].children.Keys == {} && w in f.nodes && Above(f.place[v], f.place[w])
    ensures v == w
  {
    var path, below := f.place[v].path, f.place[w].path;
    if |path| == |below| {
      PlaceInjective(f, v, w);
    } else {
      assert below[..|path| + 1] == path + [below[|path|]];
      Ancestors(f, w, |path| + 1);
      ChildAt(f, v, below[|path|]);
      assert false;
    }
  }

  /** Everything used no earlier than the end of `q` lies on one path with it. */
  ghost predicate Protected(f: Stamped, q: Pos) {
    && Boundary(f, q) && f.at[q] in f.nodes
    && forall n {:trigger Proper(f, n)} | Proper(f, n) && f.nodes[n].data >= f.nodes[f.at[q]].data :: Comparable(f.place[n], q)
  }

  /** If the only leaf is `a`, the cache holds nothing but the path to it. */
  lemma OnlyLeaf(f: Stamped, a: NodeId)
    requires Struct(f) && SingleSpace(f) && Proper(f, a)
    requires forall n | n in Leaves(f) :: n == a
    ensures |f.at| == |f.place[a].path|
  {
    var q := f.place[a];
    var bound := PathBound(f, f.nodes.Keys);
    forall p | p in f.at ensures p in Prefixes(q) {
      var n := f.at[p];
      assert Covers(f, n, p);
      var leaf := LeafBelow(f, n, bound);
      assert leaf in Leaves(f);
      PrefixesAre(q, p);
    }
    forall p | p in Prefixes(q) ensures p in f.at {
      PrefixesAre(q, p);
      assert p.path == q.path[..|p.path|];
      Ancestors(f, a, |p.path|);
    }
    assert f.at.Keys == Prefixes(q);
    SegmentSize(q.ns, q.path, 0, |q.path|);
    assert |f.at| == |f.at.Keys|;
  }

  /** A protected path is evicted last, when it is all there is. */
  lemma ProtectedLast(f: Stamped, q: Pos, v: NodeId)
    requires Struct(f) && SingleSpace(f) && Protected(f, q) && Victim(f, v) && v == f.at[q]
    ensures |f.at| == |q.path|
  {
    BoundaryNode(f, q);
    forall n | n in Leaves(f) ensures n == v {
      assert Proper(f, n);
      assert Comparable(f.place[n], q);
      if Above(f.place[n], q) { LeafEnds(f, n, v); } else { LeafEnds(f, v, n); }
    }
    OnlyLeaf(f, v);
  }

  /** `g` is what eviction left of `f`: whole runs are gone, the rest is untouched. */
  ghost predicate EvictedTo(f: Stamped, g: Stamped) {
    && g.roots == f.roots
    && g.at.Keys == (set p | p in f.at && f.at[p] in g.nodes)
    && (forall p | p in g.at :: g.at[p] == f.at[p])
    && (forall n {:trigger SameNode(f, g, n)} | n in g.nodes :: SameNode(f, g, n))
  }

  ghost predicate SameNode(f: Stamped, g: Stamped, n: NodeId) {
    && n in f.nodes && n in g.nodes && n in f.place && n in g.place && g.place[n] == f.place[n]
    && g.nodes[n].tokens == f.nodes[n].tokens && g.nodes[n].data == f.nodes[n].data && g.nodes[n].parent == f.nodes[n].parent
  }

  lemma EvictedNothing(f: Stamped)
    requires Struct(f)
    ensures EvictedTo(f, f)
  {
    assert f.at.Keys == (set p | p in f.at && f.at[p] in f.nodes);
    forall n | n in f.nodes ensures SameNode(f, f, n) { }
  }

  lemma EvictedOne(f: Stamped, g: Stamped, v: NodeId)
    requires Struct(g) && EvictedTo(f, g) && v in g.nodes && v in g.place && g.place[v].path != [] && g.nodes[v].children.Keys == {}
    ensures EvictedTo(f, RemoveLeaf(g, v))
  {
    hide RadixForest.Rooted, RadixForest.Linked, RadixForest.Indexed, SameNode;
    var h := RemoveLeaf(g, v);
    RemoveLeafStruct(g, v);
    EdgeAt(g, v);
    assert h.at.Keys == (set p | p in f.at && f.at[p] in h.nodes);
    forall n | n in h.nodes ensures SameNode(f, h, n) { SameLeft(f, g, v, n); }
  }

  lemma SameLeft(f: Stamped, g: Stamped, v: NodeId, n: NodeId)
    requires Struct(g) && EvictedTo(f, g) && v in g.nodes && v in g.place && g.place[v].path != [] && g.nodes[v].children.Keys == {}
    requires n in RemoveLeaf(g, v).nodes
    ensures SameNode(f, RemoveLeaf(g, v), n)
  {
    hide RadixForest.Rooted, RadixForest.Linked, RadixForest.Indexed;
    RemoveLeafStruct(g, v);
    EdgeAt(g, v);
    assert SameNode(f, g, n);
  }

  lemma EvictedOk(f: Stamped, g: Stamped, now: int)
    requires StockOk(f, now) && EvictedTo(f, g) && Struct(g)
    ensures StockOk(g, now)
  {
    assert g.place.Keys == g.nodes.Keys;
    forall n | n in g.nodes ensures g.place[n].ns == NS { assert SameNode(f, g, n); }
    forall n | Proper(g, n) ensures g.nodes[n].data <= now { assert SameNode(f, g, n) && Proper(f, n); }
    forall m, n | Proper(g, m) && Proper(g, n) && g.nodes[m].data == g.nodes[n].data ensures Comparable(g.place[m], g.place[n]) {
      assert SameNode(f, g, m) && SameNode(f, g, n) && Proper(f, m) && Proper(f, n);
    }
  }

  lemma EvictedLatest(f: Stamped, g: Stamped, now: int, q: Pos)
    requires Latest(f, now, q) && EvictedTo(f, g)
    ensures Latest(g, now, q)
  {
    forall n | Proper(g, n) ensures g.nodes[n].data == now <==> Above(g.place[n], q) {
      assert SameNode(f, g, n) && Proper(f, n);
    }
  }

  lemma EvictedProtected(f: Stamped, g: Stamped, q: Pos)
    requires Protected(f, q) && EvictedTo(f, g) && f.at[q] in g.nodes
    ensures Protected(g, q) && g.at[q] == f.at[q]
  {
    assert SameNode(f, g, f.at[q]);
    assert q in g.at;
    forall n | Proper(g, n) && g.nodes[n].data >= g.nodes[g.at[q]].data ensures Comparable(g.place[n], q) {
      assert SameNode(f, g, n) && Proper(f, n);
    }
  }

  /** After a request the path of the request is protected. */
  lemma LatestProtected(f: Stamped, now: int, q: Pos, r: Pos)
    requires StockOk(f, now) && Latest(f, now, q) && Boundary(f, r) && Above(r, q)
    ensures Protected(f, r)
  {
    BoundaryNode(f, r);
    var a := f.at[r];
    forall n | Proper(f, n) && f.nodes[n].data >= f.nodes[a].data ensures Comparable(f.place[n], r) {
      PrefixesCompare(f.place[n], q, r, q);
    }
  }

  /******* Insertion *******/

  /** The new leaf completes the request. */
  /** A node is on the way to the new leaf's end exactly if it is on the way to the leaf's parent. */
  lemma InsertAbove(f: Stamped, n: NodeId, run: seq<Token>, m: NodeId)
    requires Struct(f) && n in f.nodes && n in f.place && run != [] && run[0] !in f.nodes[n].children && Proper(f, m)
    requires f.place[n].ns == NS
    ensures Above(f.place[m], Pos(NS, f.place[n].path + run)) <==> Above(f.place[m], f.place[n])
  {
    hide RadixForest.Rooted, RadixForest.Linked, RadixForest.Indexed;
    var q := Pos(NS, f.place[n].path + run);
    if Above(f.place[m], q) && !Above(f.place[m], f.place[n]) {
      assert f.place[m].path == q.path[..|f.place[m].path|];
      AddLeafFresh(f, n, run, f.place[m]);
      NodeIsBoundary(f, m);
      assert false;
    }
  }

  lemma InsertLatest(f: Stamped, now: int, n: NodeId, run: seq<Token>, leaf: NodeId)
    requires StockOk(f, now) && n in f.nodes && run != [] && leaf !in f.nodes && run[0] !in f.nodes[n].children
    requires Latest(f, now, f.place[n])
    ensures var g := AddLeaf(f, n, run, leaf, now);
            Struct(g) && SingleSpace(g) && Latest(g, now, Pos(NS, f.place[n].path + run))
  {
    hide RadixForest.Rooted, RadixForest.Linked, RadixForest.Indexed, Above, Ordered;
    var g := AddLeaf(f, n, run, leaf, now);
    var q := Pos(NS, f.place[n].path + run);
    AddLeafStruct(f, n, run, leaf, now);
    AboveSelf(q);
    forall m | Proper(g, m) ensures g.nodes[m].data == now <==> Above(g.place[m], q) {
      if m != leaf {
        assert Proper(f, m);
        InsertAbove(f, n, run, m);
      }
    }
  }

  lemma InsertOrdered(f: Stamped, now: int, n: NodeId, run: seq<Token>, leaf: NodeId)
    requires StockOk(f, now) && n in f.nodes && run != [] && leaf !in f.nodes && run[0] !in f.nodes[n].children
    requires Latest(f, now, f.place[n])
    ensures StockOk(AddLeaf(f, n, run, leaf, now), now)
  {
    var g := AddLeaf(f, n, run, leaf, now);
    InsertLatest(f, now, n, run, leaf);
    var q := Pos(NS, f.place[n].path + run);
    forall m | Proper(g, m) ensures g.nodes[m].data <= now { if m != leaf { assert Proper(f, m); } }
    forall a, b | Proper(g, a) && Proper(g, b) && g.nodes[a].data == g.nodes[b].data
      ensures Comparable(g.place[a], g.place[b])
    {
      if g.nodes[a].data == now {
        PrefixesCompare(g.place[a], q, g.place[b], q);
      } else {
        assert Proper(f, a) && Proper(f, b);
      }
    }
  }
}
