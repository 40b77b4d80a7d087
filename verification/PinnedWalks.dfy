/**
Facts the loops of the tree-keyed cache need: pinning a path run by run,
traversing a namespace with a stack, and what an operation does to budgets.
*/
module PinnedWalks {
  import opened Common
  import opened RadixForest
  import opened BranchTrie
  import opened PinnedForest

  /** The cached positions of one namespace. */
  ghost function CachedIn(live: Branches, ns: string): set<Pos> {
    set p | p in Cached(live) && p.ns == ns
  }

  /** Pinning the next run of a path extends `PinnedDown` to the end of that run. */
  lemma PinStep(f: Forest<Pins>, g: Forest<Pins>, t: string, n: NodeId, c: NodeId, d: Pins)
    requires Struct(f) && n in f.nodes && c in f.nodes && EdgeOk(f, c) && f.nodes[c].parent == n
    requires PinnedDown(f, g, t, f.place[n]) && Counted(g)
    requires d.owners == g.nodes[c].data.owners + {t} && d.ref == |d.owners|
    ensures PinnedDown(f, SetData(g, c, d), t, f.place[c]) && Counted(SetData(g, c, d))
  {
    hide RadixForest.Struct, RadixForest.EdgeOk;
    var h := SetData(g, c, d);
    EdgeAt(f, c);
    forall m | m in f.nodes && f.place[m].path != []
      ensures h.nodes[m].data.owners ==
                (if Above(f.place[m], f.place[c]) then f.nodes[m].data.owners + {t} else f.nodes[m].data.owners)
    {
      AboveChild(f, n, c, m);
    }
  }

  /** What is above a child is the child itself or above its parent. */
  lemma AboveChild(f: Forest<Pins>, n: NodeId, c: NodeId, m: NodeId)
    requires Struct(f) && n in f.nodes && c in f.nodes && EdgeOk(f, c) && f.nodes[c].parent == n
    requires m in f.nodes && f.place[m].path != []
    ensures Above(f.place[m], f.place[c]) <==> m == c || Above(f.place[m], f.place[n])
  {
    if m != c && Above(f.place[m], f.place[c]) && !Above(f.place[m], f.place[n]) {
      assert f.place[n].path == f.place[c].path[..|f.place[n].path|];
      assert f.place[m].path == f.place[c].path[..|f.place[m].path|];
      assert |f.place[m].path| > |f.place[n].path|;
      assert EdgeOk(f, m);
      assert Covers(f, c, f.place[m]) && Covers(f, m, f.place[m]);
      assert false;
    }
  }

  /** A node strictly below `n` hangs under one of `n`'s children. */
  lemma ViaChild(f: Forest<Pins>, n: NodeId, m: NodeId)
    requires Struct(f) && n in f.nodes && m in f.nodes && n != m && Above(f.place[n], f.place[m])
    ensures |f.place[n].path| < |f.place[m].path|
    ensures var k := f.place[m].path[|f.place[n].path|];
            && k in f.nodes[n].children
            && f.nodes[n].children[k] in f.nodes[n].children.Values
            && f.nodes[n].children[k] in f.nodes
            && Above(f.place[f.nodes[n].children[k]], f.place[m])
  {
    var path, below := f.place[n].path, f.place[m].path;
    if |path| == |below| {
      PlaceInjective(f, n, m);
      assert false;
    }
    var k := below[|path|];
    assert below[..|path| + 1] == path + [k];
    Ancestors(f, m, |path| + 1);
    var p := Pos(f.place[m].ns, path + [k]);
    assert Covers(f, f.at[p], p);
    ChildAt(f, n, k);
  }

  lemma KeyOf(m: map<Token, NodeId>, v: NodeId)
    requires v in m.Values
    ensures exists k: Token :: k in m && m[k] == v
  {
    if forall k: Token :: k in m ==> m[k] != v {
      assert false;
    }
  }

  lemma Kid(f: Forest<Pins>, n: NodeId, s: NodeId)
    requires Struct(f) && n in f.nodes && s in f.nodes[n].children.Values
    ensures s in f.nodes && f.nodes[s].parent == n && f.place[s].path != [] && EdgeOk(f, s)
  {
    KeyOf(f.nodes[n].children, s);
    var k: Token :| k in f.nodes[n].children && f.nodes[n].children[k] == s;
    assert ChildOk(f, n, k);
    assert EdgeOk(f, s);
  }

  /** The bookkeeping of a traversal: `stack` is a cut below which nothing is done. */
  ghost predicate Frontier(f: Forest<Pins>, ns: string, stack: set<NodeId>, done: set<NodeId>) {
    && stack <= f.nodes.Keys && done <= f.nodes.Keys && f.place.Keys == f.nodes.Keys
    && (forall s | s in stack + done :: f.place[s].ns == ns && f.place[s].path != [])
    && (forall s, u | s in stack && u in stack && Above(f.place[s], f.place[u]) :: s == u)
    && (forall s, u | s in stack && u in done :: !Above(f.place[s], f.place[u]))
    && (forall n | n in f.nodes && f.place[n].ns == ns && f.place[n].path != [] ::
          n in done || exists s :: s in stack && Above(f.place[s], f.place[n]))
  }

  lemma KidsApart(f: Forest<Pins>, n: NodeId, a: NodeId, b: NodeId)
    requires Struct(f) && n in f.nodes && a in f.nodes[n].children.Values && b in f.nodes[n].children.Values
    requires a in f.place && b in f.place && Above(f.place[a], f.place[b])
    ensures a == b
  {
    Kid(f, n, a);
    Kid(f, n, b);
    assert f.place[a].path[|f.place[n].path|] == f.nodes[a].tokens[0];
    assert f.place[b].path[|f.place[n].path|] == f.nodes[b].tokens[0];
  }

  /** The children of the namespace root are a frontier with nothing done yet. */
  lemma FrontierStart(f: Forest<Pins>, ns: string)
    requires Struct(f) && ns in f.roots
    ensures Frontier(f, ns, f.nodes[f.roots[ns]].children.Values, {})
  {
    var r := f.roots[ns];
    var kids := f.nodes[r].children.Values;
    forall s | s in kids ensures s in f.nodes && f.place[s].ns == ns && f.place[s].path != [] { Kid(f, r, s); }
    forall s, u | s in kids && u in kids && Above(f.place[s], f.place[u]) ensures s == u { KidsApart(f, r, s, u); }
    forall n | n in f.nodes && f.place[n].ns == ns && f.place[n].path != []
      ensures exists s :: s in kids && Above(f.place[s], f.place[n])
    {
      ViaChild(f, r, n);
    }
  }

  lemma FrontierApart(f: Forest<Pins>, ns: string, stack: set<NodeId>, done: set<NodeId>, n: NodeId, c: NodeId, u: NodeId)
    requires Struct(f) && Frontier(f, ns, stack, done) && n in stack
    requires c in f.nodes.Keys && f.nodes[c].parent == n && f.place[c].path != [] && u in f.nodes
    ensures u in stack && u != n ==> !Above(f.place[c], f.place[u]) && !Above(f.place[u], f.place[c])
    ensures u in done + {n} ==> !Above(f.place[c], f.place[u])
  {
    assert EdgeOk(f, c);
    assert f.place[n].path == f.place[c].path[..|f.place[n].path|];
    assert Above(f.place[u], f.place[c]) ==> Above(f.place[u], f.place[n]) || Above(f.place[n], f.place[u]) by {
      if Above(f.place[u], f.place[c]) { assert f.place[u].path == f.place[c].path[..|f.place[u].path|]; }
    }
    assert Above(f.place[c], f.place[u]) ==> Above(f.place[n], f.place[u]);
  }

  lemma FrontierCut(f: Forest<Pins>, ns: string, stack: set<NodeId>, done: set<NodeId>, n: NodeId, s: NodeId, u: NodeId)
    requires Struct(f) && Frontier(f, ns, stack, done) && n in stack
    requires var next := stack - {n} + f.nodes[n].children.Values; s in next && u in next
    requires s in f.place && u in f.place && Above(f.place[s], f.place[u])
    ensures s == u
  {
    var kids := f.nodes[n].children.Values;
    if s in kids { Kid(f, n, s); FrontierApart(f, ns, stack, done, n, s, u); }
    if u in kids { Kid(f, n, u); FrontierApart(f, ns, stack, done, n, u, s); }
    if s in kids && u in kids { KidsApart(f, n, s, u); }
  }

  /** Popping a node and pushing its children keeps the frontier. */
  lemma FrontierNext(f: Forest<Pins>, ns: string, stack: set<NodeId>, done: set<NodeId>, n: NodeId, s: NodeId)
    requires Struct(f) && Frontier(f, ns, stack, done) && n in stack && s in stack - {n} + f.nodes[n].children.Values
    ensures s in f.nodes && s in f.place && f.place[s].ns == ns && f.place[s].path != []
    ensures forall u | u in done + {n} :: u in f.place && !Above(f.place[s], f.place[u])
  {
    hide RadixForest.Struct, BranchTrie.Above;
    EdgeAt(f, n);
    AboveSelf(f.place[n]);
    if s in f.nodes[n].children.Values {
      Kid(f, n, s);
      forall u | u in done + {n} ensures !Above(f.place[s], f.place[u]) { FrontierApart(f, ns, stack, done, n, s, u); }
    }
  }

  /** The frontier, one conjunct after the other. */
  lemma FrontierIs(f: Forest<Pins>, ns: string, stack: set<NodeId>, done: set<NodeId>)
    requires stack <= f.nodes.Keys && done <= f.nodes.Keys && f.place.Keys == f.nodes.Keys
    requires forall s | s in stack + done :: f.place[s].ns == ns && f.place[s].path != []
    requires forall s, u | s in stack && u in stack && Above(f.place[s], f.place[u]) :: s == u
    requires forall s, u | s in stack && u in done :: !Above(f.place[s], f.place[u])
    requires forall n | n in f.nodes && f.place[n].ns == ns && f.place[n].path != [] ::
               n in done || exists s :: s in stack && Above(f.place[s], f.place[n])
    ensures Frontier(f, ns, stack, done)
  {
  }

  lemma FrontierHas(f: Forest<Pins>, ns: string, stack: set<NodeId>, done: set<NodeId>, s: NodeId)
    requires Frontier(f, ns, stack, done) && s in stack + done
    ensures s in f.nodes && s in f.place && f.place.Keys == f.nodes.Keys && f.place[s].ns == ns && f.place[s].path != []
    ensures s in stack ==> s !in done
  {
    AboveSelf(f.place[s]);
  }

  lemma FrontierStep(f: Forest<Pins>, ns: string, stack: set<NodeId>, done: set<NodeId>, n: NodeId)
    requires Struct(f) && Frontier(f, ns, stack, done) && n in stack
    ensures n !in done
    ensures Frontier(f, ns, stack - {n} + f.nodes[n].children.Values, done + {n})
  {
    hide RadixForest.Struct, BranchTrie.Above, Frontier;
    FrontierHas(f, ns, stack, done, n);
    var next := stack - {n} + f.nodes[n].children.Values;
    forall s | s in next ensures s in f.nodes && f.place[s].ns == ns && f.place[s].path != [] { FrontierNext(f, ns, stack, done, n, s); }
    forall s | s in done + {n} ensures s in f.nodes && f.place[s].ns == ns && f.place[s].path != [] { FrontierHas(f, ns, stack, done, s); }
    forall s, u | s in next && u in next && Above(f.place[s], f.place[u]) ensures s == u {
      FrontierCut(f, ns, stack, done, n, s, u);
    }
    forall s, u | s in next && u in done + {n} ensures !Above(f.place[s], f.place[u]) { FrontierNext(f, ns, stack, done, n, s); }
    forall m | m in f.nodes && f.place[m].ns == ns && f.place[m].path != []
      ensures m in done + {n} || exists s :: s in next && Above(f.place[s], f.place[m])
    {
      FrontierCovers(f, ns, stack, done, n, m);
    }
    FrontierIs(f, ns, next, done + {n});
  }

  lemma FrontierCovers(f: Forest<Pins>, ns: string, stack: set<NodeId>, done: set<NodeId>, n: NodeId, m: NodeId)
    requires Struct(f) && Frontier(f, ns, stack, done) && n in stack
    requires m in f.nodes && f.place[m].ns == ns && f.place[m].path != []
    ensures m in done + {n} ||
            exists s :: s in stack - {n} + f.nodes[n].children.Values && s in f.place && Above(f.place[s], f.place[m])
  {
    if m !in done + {n} {
      var s :| s in stack && Above(f.place[s], f.place[m]);
      if s == n {
        ViaChild(f, n, m);
      } else {
        assert s in stack - {n} + f.nodes[n].children.Values;
      }
    }
  }

  /******* Budgets *******/

  ghost predicate WithinBudget(live: Branches, budget: Option<nat>) {
    budget.Some? ==> forall ns :: |CachedIn(live, ns)| <= budget.value
  }

  /** Only the extended branch's namespace grows, by the number of charged tokens. */
  lemma BudgetExtend(live: Branches, t: string, full: seq<Token>, matched: nat, budget: Option<nat>)
    requires t in live && live[t].path <= full && matched == Longest(live, live[t].ns, full)
    requires WithinBudget(live, budget)
    requires budget.Some? ==> |CachedIn(live, live[t].ns)| + |full| - matched <= budget.value
    ensures WithinBudget(live[t := Pos(live[t].ns, full)], budget)
  {
    var q := Pos(live[t].ns, full);
    var now := live[t := q];
    CachedWith(live, t, q);
    var seg := Segment(q.ns, full, matched, |full|);
    forall p | p in Prefixes(q) ensures p in CachedIn(live, q.ns) || p in seg {
      PrefixesAre(q, p);
      if |p.path| <= matched {
        assert p.path == full[..matched][..|p.path|];
        CachedClosed(live, Pos(q.ns, full[..matched]), |p.path|);
      } else {
        assert p == Pos(q.ns, full[..|p.path|]);
      }
    }
    forall ns ensures budget.Some? ==> |CachedIn(now, ns)| <= budget.value {
      if ns == q.ns {
        SegmentSize(q.ns, full, matched, |full|);
        SubsetSize(CachedIn(now, ns), CachedIn(live, ns) + seg);
      } else {
        SubsetSize(CachedIn(now, ns), CachedIn(live, ns)) by {
          forall p | p in Prefixes(q) ensures p.ns == q.ns { PrefixesAre(q, p); }
        }
      }
    }
  }

  lemma BudgetShrinks(live: Branches, now: Branches, budget: Option<nat>)
    requires WithinBudget(live, budget) && Cached(now) <= Cached(live)
    ensures WithinBudget(now, budget)
  {
    forall ns ensures budget.Some? ==> |CachedIn(now, ns)| <= budget.value {
      SubsetSize(CachedIn(now, ns), CachedIn(live, ns));
    }
  }

  /******* Interface of the loops *******/

  /** What `PinnedDown` says about one node, without its payload. */
  lemma PinShape(f: Forest<Pins>, g: Forest<Pins>, t: string, q: Pos, n: NodeId)
    requires PinnedDown(f, g, t, q) && n in f.nodes
    ensures n in g.nodes && g.nodes[n].tokens == f.nodes[n].tokens && g.nodes[n].children == f.nodes[n].children
    ensures g.nodes[n].parent == f.nodes[n].parent
    ensures g.roots == f.roots && g.place == f.place && g.at == f.at && g.nodes.Keys == f.nodes.Keys
  {
  }

  lemma PinStart(f: Forest<Pins>, t: string, ns: string)
    requires f.place.Keys == f.nodes.Keys
    ensures PinnedDown(f, f, t, Pos(ns, []))
  {
  }

  /** The next node of a fork is not yet owned by the new child. */
  lemma ForkPin(f: Forest<Pins>, g: Forest<Pins>, live: Branches, child: string, n: NodeId, c: NodeId)
    requires Represents(f, live) && child !in live && n in f.nodes && c in f.nodes && EdgeOk(f, c) && f.nodes[c].parent == n
    requires PinnedDown(f, g, child, f.place[n]) && Counted(g)
    ensures c in g.nodes && child !in g.nodes[c].data.owners && g.nodes[c].data.ref == |g.nodes[c].data.owners|
  {
    assert PinnedAt(f, live, c);
  }

  /** The nodes of a live path, each run starting where the one before it ends. */
  ghost predicate Chain(f: Forest<Pins>, ns: string, path: seq<NodeId>, q: seq<Token>) {
    && (forall i | 0 <= i < |path| ::
          && path[i] in f.nodes && path[i] in f.place
          && f.place[path[i]].path != [] && Above(f.place[path[i]], Pos(ns, q))
          && |f.place[path[i]].path| - |f.nodes[path[i]].tokens| == ChainEnd(f, path, i))
    && |q| == ChainEnd(f, path, |path|)
  }

  /** Where the first `i` nodes of a chain end. */
  ghost function ChainEnd(f: Forest<Pins>, path: seq<NodeId>, i: nat): int {
    if 0 < i <= |path| && path[i - 1] in f.place then |f.place[path[i - 1]].path| else 0
  }

  lemma ChainAt(f: Forest<Pins>, ns: string, path: seq<NodeId>, q: seq<Token>, i: nat)
    requires Chain(f, ns, path, q) && i < |path|
    ensures path[i] in f.nodes && path[i] in f.place
    ensures f.place[path[i]].path != [] && Above(f.place[path[i]], Pos(ns, q))
    ensures ChainEnd(f, path, i + 1) == |f.place[path[i]].path|
    ensures ChainEnd(f, path, i) == |f.place[path[i]].path| - |f.nodes[path[i]].tokens|
  {
  }

  lemma ChainWhole(f: Forest<Pins>, ns: string, path: seq<NodeId>, q: seq<Token>)
    requires Chain(f, ns, path, q)
    ensures ChainEnd(f, path, |path|) == |q| && ChainEnd(f, path, 0) == 0
  {
  }

  lemma ChainStep(f: Forest<Pins>, ns: string, path: seq<NodeId>, q: seq<Token>, c: NodeId)
    requires Chain(f, ns, path, q) && c in f.nodes && c in f.place
    requires f.place[c].ns == ns && f.place[c].path != [] && q <= f.place[c].path
    requires |f.place[c].path| == |q| + |f.nodes[c].tokens|
    ensures Chain(f, ns, path + [c], f.place[c].path)
  {
    var longer := path + [c];
    forall i | 0 <= i < |longer|
      ensures ChainEnd(f, longer, i) == ChainEnd(f, path, i)
      ensures i < |path| ==> Above(f.place[path[i]], Pos(ns, f.place[c].path))
    {
    }
  }

  /** One branch alone holds a run exactly when its count drops to zero. */
  lemma LastHolder(holders: set<string>, t: string)
    requires t in holders
    ensures |holders| - 1 == |holders - {t}|
    ensures |holders| - 1 <= 0 <==> holders == {t}
  {
    if |holders - {t}| == 0 {
      assert holders == {t} + (holders - {t});
    }
  }

  /** One step of the release loop: which of the two ways it went. */
  lemma ReleaseStep(f: Forest<Pins>, g: Forest<Pins>, live: Branches, t: string, n: NodeId, pins: Pins)
    requires Represents(f, live) && t in live && n in f.nodes && n in f.place
    requires f.place[n].path != [] && Above(f.place[n], live[t])
    requires Released(f, g, live, t, |f.place[n].path|)
    requires n in g.nodes && pins == Pins(g.nodes[n].data.ref - 1, g.nodes[n].data.owners - {t})
    ensures |f.nodes[n].tokens| <= |f.place[n].path| && g.nodes[n].tokens == f.nodes[n].tokens
    ensures Struct(g) && n in g.place && g.place[n].path != []
    ensures if pins.ref <= 0 && g.nodes[n].children.Keys == {} then
              && Released(f, RemoveLeaf(g, n), live, t, |f.place[n].path| - |f.nodes[n].tokens|)
              && |RemoveLeaf(g, n).at| == |g.at| - |f.nodes[n].tokens|
            else
              Released(f, SetData(g, n, pins), live, t, |f.place[n].path| - |f.nodes[n].tokens|)
  {
    hide RadixForest.Rooted, RadixForest.Linked, RadixForest.Indexed;
    hide PinnedForest.Represents, PinnedForest.Released, BranchTrie.Holders, RadixForest.RemoveLeaf;
    RepresentsStruct(f, live);
    ReleaseNext(f, g, live, t, n);
    ReleasedStruct(f, g, live, t, |f.place[n].path|);
    var holders := Holders(live, f.place[n]);
    HolderOf(live, t, f.place[n]);
    LastHolder(holders, t);
    if holders == {t} {
      ReleaseLeaf(f, g, live, t, n);
      ReleaseExclusive(f, g, live, t, n);
    } else {
      ReleaseShared(f, g, live, t, n);
    }
  }

  lemma ReleaseHas(f: Forest<Pins>, g: Forest<Pins>, live: Branches, t: string, n: NodeId)
    requires Represents(f, live) && t in live && n in f.nodes && n in f.place
    requires f.place[n].path != [] && Above(f.place[n], live[t])
    requires Released(f, g, live, t, |f.place[n].path|)
    ensures n in g.nodes && EdgeOk(g, n) && g.nodes[n].parent != n
  {
    ReleaseNext(f, g, live, t, n);
    EdgeAt(g, n);
  }

  /******* Creating over an existing namespace *******/

  /** Re-creating `ns` would cut off a live branch that has cached tokens. */
  ghost predicate Clobbers(live: Branches, ns: string) {
    exists s :: s in live && live[s].ns == ns && live[s].path != []
  }

  /** Overwriting the root of a namespace that caches nothing is harmless. */
  lemma CreateOverEmpty(f: Forest<Pins>, live: Branches, t: string, root: NodeId, parent: NodeId)
    requires Represents(f, live) && t !in live && t in f.roots && root !in f.nodes && !Clobbers(live, t)
    ensures Represents(AddRoot(RemoveRoot(f, t), t, root, parent, Pins(0, {})), live[t := Pos(t, [])])
  {
    forall p | p in f.at ensures p.ns != t { CachedIs(live, p); }
    var h := RemoveRoot(f, t);
    RemoveRootStruct(f, t);
    RootlessRest(f, live, t);
    AddRootStruct(h, t, root, parent, Pins(0, {}));
    CreateTracks(h, live, t, root, parent);
    CreatePinned(h, live, t, root, parent);
    CreateNamespaces(f, AddRoot(h, t, root, parent, Pins(0, {})), live, t);
  }

  lemma CreateNamespaces(f: Forest<Pins>, g: Forest<Pins>, live: Branches, t: string)
    requires Namespaces(f, live) && g.roots.Keys == f.roots.Keys && t in f.roots && t !in live
    ensures Namespaces(g, live[t := Pos(t, [])])
  {
    var now := live[t := Pos(t, [])];
    forall ns | ns in g.roots ensures exists s :: s in now && now[s].ns == ns {
      var s :| s in live && live[s].ns == ns;
      assert s in now && now[s].ns == ns;
    }
  }

  lemma NamespaceOf(f: Forest<Pins>, live: Branches, t: string)
    requires Represents(f, live) && t in live
    ensures live[t].ns in f.roots
  {
  }

  lemma RepresentsCounted(f: Forest<Pins>, live: Branches)
    requires Represents(f, live)
    ensures Counted(f)
  {
    PinnedCounted(f, live);
  }

  lemma RepresentsStruct(f: Forest<Pins>, live: Branches)
    requires Represents(f, live)
    ensures Struct(f) && f.place.Keys == f.nodes.Keys
  {
  }

  lemma NoNamespaces(f: Forest<Pins>)
    requires Represents(f, map[])
    ensures f.roots == map[]
  {
  }

  lemma CountedAt(g: Forest<Pins>, n: NodeId)
    requires Counted(g) && n in g.nodes
    ensures g.place[n].path != [] ==> g.nodes[n].data.ref == |g.nodes[n].data.owners|
  {
  }

  lemma ChainStart(f: Forest<Pins>, ns: string)
    ensures Chain(f, ns, [], [])
  {
  }

  lemma ReleasedStruct(f: Forest<Pins>, g: Forest<Pins>, live: Branches, t: string, c: nat)
    requires t in live && Released(f, g, live, t, c)
    ensures Struct(g) && g.roots == f.roots
  {
  }

  lemma AttachedParts(f: Forest<Pins>, n: NodeId, t: string, full: seq<Token>, matched: nat, leaf: NodeId)
    requires Struct(f) && n in f.nodes && matched <= |full|
    ensures var g := Attached(f, n, t, full, matched, leaf);
            && g.roots == f.roots
            && g.nodes == (if matched < |full| then GraftNodes(f.nodes, n, full[matched..], leaf, Pins(1, {t})) else f.nodes)
  {
  }

  lemma AttachedCounted(f: Forest<Pins>, live: Branches, t: string, n: NodeId, full: seq<Token>, matched: nat, leaf: NodeId)
    requires Represents(f, live) && n in f.nodes && matched <= |full|
    ensures Counted(Attached(f, n, t, full, matched, leaf))
  {
    PinnedCounted(f, live);
  }

  /** Everything pinning the new path needs to know about the grafted arena. */
  lemma AttachedFacts(f: Forest<Pins>, live: Branches, t: string, n: NodeId, full: seq<Token>, matched: nat, leaf: NodeId)
    requires Represents(f, live) && t in live && live[t].path <= full
    requires n in f.nodes && n in f.place && leaf !in f.nodes && matched <= |full|
    requires f.place[n] == Pos(live[t].ns, full[..matched])
    requires matched < |full| ==> full[matched] !in f.nodes[n].children
    ensures ReadyToAttach(f, live, t, n, full, matched, leaf)
    ensures var g := Attached(f, n, t, full, matched, leaf);
            && Struct(g) && Tracks(g, live[t := Pos(live[t].ns, full)]) && Counted(g)
            && g.roots == f.roots
            && g.nodes == (if matched < |full| then GraftNodes(f.nodes, n, full[matched..], leaf, Pins(1, {t})) else f.nodes)
  {
    hide RadixForest.Rooted, RadixForest.Linked, RadixForest.Indexed, PinnedForest.Tracks, PinnedForest.Namespaces, PinnedForest.Pinned;
    hide RadixForest.GraftNodes, PinnedForest.Attached, PinnedForest.Counted;
    AttachedParts(f, n, t, full, matched, leaf);
    AttachedStruct(f, t, n, live[t].ns, full, matched, leaf);
    AttachedTracks(f, live, t, n, full, matched, leaf);
    AttachedCounted(f, live, t, n, full, matched, leaf);
  }

  lemma NothingUnreferenced(f: Forest<Pins>, live: Branches)
    requires Represents(f, live)
    ensures forall n | n in f.nodes && f.nodes[n].tokens != [] :: f.nodes[n].data.ref >= 1
  {
    forall n | n in f.nodes && f.nodes[n].tokens != [] ensures f.nodes[n].data.ref >= 1 {
      Referenced(f, live, n);
    }
  }

  lemma CachedSizes(f: Forest<Pins>, g: Forest<Pins>, live: Branches, now: Branches)
    requires Tracks(f, live) && Tracks(g, now)
    ensures |Cached(now)| - |Cached(live)| == |g.at| - |f.at|
  {
    assert |f.at| == |f.at.Keys| && |g.at| == |g.at.Keys|;
  }

  /******* Counting a namespace *******/

  ghost function CountedBy(f: Forest<Pins>, done: set<NodeId>): set<Pos> {
    set p | p in f.at && f.at[p] in done
  }

  lemma CountedNothing(f: Forest<Pins>)
    ensures CountedBy(f, {}) == {}
  {
  }

  lemma CountOne(f: Forest<Pins>, done: set<NodeId>, n: NodeId)
    requires Struct(f) && n in f.nodes && n !in done
    ensures |CountedBy(f, done + {n})| == |CountedBy(f, done)| + |f.nodes[n].tokens|
  {
    RunIsSegment(f, n);
    assert CountedBy(f, done + {n}) == CountedBy(f, done) + Run(f, n);
    assert CountedBy(f, done) !! Run(f, n);
  }

  lemma FrontierMember(f: Forest<Pins>, ns: string, stack: set<NodeId>, done: set<NodeId>, n: NodeId)
    requires Frontier(f, ns, stack, done) && n in stack
    ensures n in f.nodes && n !in done
  {
    assert Above(f.place[n], f.place[n]);
  }

  lemma CountedAll(f: Forest<Pins>, live: Branches, ns: string, done: set<NodeId>)
    requires Struct(f) && Tracks(f, live) && Frontier(f, ns, {}, done)
    ensures CountedBy(f, done) == CachedIn(live, ns)
  {
    forall p | p in f.at ensures f.at[p] in done <==> p.ns == ns {
      assert Covers(f, f.at[p], p);
    }
  }

  /******* Books *******/

  lemma CreateBooks(live: Branches, t: string, budget: Option<nat>)
    requires t !in live && WithinBudget(live, budget)
    ensures Cached(live[t := Pos(t, [])]) == Cached(live)
    ensures Logical(live[t := Pos(t, [])]) == Logical(live)
    ensures WithinBudget(live[t := Pos(t, [])], budget)
  {
    CachedWith(live, t, Pos(t, []));
    assert Prefixes(Pos(t, [])) == {};
    LogicalWith(live, t, Pos(t, []));
    assert live - {t} == live;
    BudgetShrinks(live, live[t := Pos(t, [])], budget);
  }

  lemma ForkBooks(live: Branches, parent: string, child: string, budget: Option<nat>)
    requires parent in live && child !in live && WithinBudget(live, budget)
    ensures Cached(live[child := live[parent]]) == Cached(live)
    ensures Logical(live[child := live[parent]]) == Logical(live) + |live[parent].path|
    ensures WithinBudget(live[child := live[parent]], budget)
  {
    CachedWith(live, child, live[parent]);
    forall p | p in Prefixes(live[parent]) ensures p in Cached(live) {
      PrefixesAre(live[parent], p);
      CachedIs(live, p);
    }
    LogicalWith(live, child, live[parent]);
    assert live - {child} == live;
    BudgetShrinks(live, live[child := live[parent]], budget);
  }

  lemma KillBooks(live: Branches, t: string, budget: Option<nat>)
    requires t in live && WithinBudget(live, budget)
    ensures |Cached(live - {t})| == |Cached(live)| - |Exclusive(live, t)|
    ensures Logical(live - {t}) == Logical(live) - |live[t].path|
    ensures WithinBudget(live - {t}, budget)
  {
    CachedWithout(live, t);
    LogicalRemove(live, t);
    BudgetShrinks(live, live - {t}, budget);
  }
}
