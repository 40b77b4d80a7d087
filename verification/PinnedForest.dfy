/**
How the arena of the tree-keyed cache represents the branch trie, and what each
change of the arena does to that representation.
*/
module PinnedForest {
  import opened RadixForest
  import opened BranchTrie

  /** Reference count and owner set of a node. */
  datatype Pins = Pins(ref: int, owners: set<string>)

  /** The cached positions are the trie, and live paths end on node boundaries:
      a branch that enters a run goes through to its end. */
  ghost predicate Tracks(f: Forest<Pins>, live: Branches) {
    && f.at.Keys == Cached(live)
    && (forall p | p in f.at :: f.at[p] in f.place)
    && (forall p, t {:trigger Above(f.place[f.at[p]], live[t])} |
          p in f.at && t in live && Above(p, live[t]) :: Above(f.place[f.at[p]], live[t]))
  }

  /** A namespace root exists exactly while some branch of the namespace lives. */
  ghost predicate Namespaces(f: Forest<Pins>, live: Branches) {
    && (forall t | t in live :: live[t].ns in f.roots)
    && (forall ns | ns in f.roots :: exists t :: t in live && live[t].ns == ns)
  }

  ghost predicate PinnedAt(f: Forest<Pins>, live: Branches, n: NodeId) {
    && n in f.nodes && n in f.place
    && f.nodes[n].data == Pins(|Holders(live, f.place[n])|, Holders(live, f.place[n]))
  }

  /** Owners are the branches passing through, counted exactly. */
  ghost predicate Pinned(f: Forest<Pins>, live: Branches) {
    f.place.Keys == f.nodes.Keys &&
    forall n {:trigger PinnedAt(f, live, n)} | n in f.nodes && f.place[n].path != [] :: PinnedAt(f, live, n)
  }

  ghost predicate Represents(f: Forest<Pins>, live: Branches) {
    Struct(f) && Tracks(f, live) && Namespaces(f, live) && Pinned(f, live)
  }

  /** Alignment, usable without naming a trigger. */
  lemma Aligned(f: Forest<Pins>, live: Branches, p: Pos, t: string)
    requires Struct(f) && Tracks(f, live) && p in f.at && t in live && Above(p, live[t])
    ensures Above(f.place[f.at[p]], live[t])
  {
  }

  /** Every node below a root is owned by somebody. */
  lemma Referenced(f: Forest<Pins>, live: Branches, n: NodeId)
    requires Represents(f, live) && n in f.nodes && f.place[n].path != []
    ensures f.nodes[n].data.ref >= 1 && f.nodes[n].data.ref == |f.nodes[n].data.owners|
    ensures f.place[n] in f.at
  {
    assert EdgeOk(f, n);
    assert Covers(f, n, f.place[n]);
    CachedIs(live, f.place[n]);
    assert PinnedAt(f, live, n);
  }

  /** From a node on a live path the next run on that path can be followed in full. */
  lemma Follow(f: Forest<Pins>, live: Branches, t: string, n: NodeId)
    requires Struct(f) && Tracks(f, live) && t in live && n in f.nodes
    requires Above(f.place[n], live[t]) && |f.place[n].path| < |live[t].path|
    ensures var k := |f.place[n].path|;
            && live[t].path[k] in f.nodes[n].children
            && var c := f.nodes[n].children[live[t].path[k]];
            && c in f.nodes
            && f.nodes[c].tokens != [] && f.nodes[c].parent == n
            && Above(f.place[c], live[t])
            && |f.place[c].path| == k + |f.nodes[c].tokens|
            && live[t].path[k..k + |f.nodes[c].tokens|] == f.nodes[c].tokens
  {
    var k := |f.place[n].path|;
    var p := Pos(live[t].ns, f.place[n].path + [live[t].path[k]]);
    assert p.path == live[t].path[..k + 1];
    CachedIs(live, p);
    ChildAt(f, n, live[t].path[k]);
    var c := f.nodes[n].children[live[t].path[k]];
    Aligned(f, live, p, t);
    assert ChildOk(f, n, live[t].path[k]) && EdgeOk(f, c);
    assert f.place[c].path[k..] == f.nodes[c].tokens;
    assert f.place[c].path == live[t].path[..|f.place[c].path|];
  }

  /** Positions on one run have the same holders. */
  lemma SameHolders(f: Forest<Pins>, live: Branches, p: Pos)
    requires Struct(f) && Tracks(f, live) && p in f.at
    ensures Holders(live, p) == Holders(live, f.place[f.at[p]])
  {
    assert Covers(f, f.at[p], p);
    forall t | t in Holders(live, p) ensures t in Holders(live, f.place[f.at[p]]) {
      Aligned(f, live, p, t);
    }
  }

  /******* Lookups *******/

  /** A split is invisible: the same branches are represented. */
  lemma SplitRepresents(f: Forest<Pins>, live: Branches, n: NodeId, k: nat, head: NodeId)
    requires Represents(f, live)
    requires n in f.nodes && f.place[n].path != [] && 0 < k < |f.nodes[n].tokens| && head !in f.nodes
    ensures Represents(Split(f, n, k, head), live)
  {
    var g := Split(f, n, k, head);
    SplitStruct(f, n, k, head);
    assert EdgeOk(f, n);
    assert PinnedAt(f, live, n);
    var hp := g.place[head];
    assert Covers(f, n, hp) by {
      assert hp.path == f.place[n].path[..|hp.path|];
    }
    SameHolders(f, live, hp);
    forall m | m in g.nodes && g.place[m].path != [] ensures PinnedAt(g, live, m) {
      if m != head { assert PinnedAt(f, live, m); }
    }
    forall p, t | p in g.at && t in live && Above(p, live[t]) ensures Above(g.place[g.at[p]], live[t]) {
      Aligned(f, live, p, t);
    }
  }

  /** Where a walk stops is the longest cached prefix. */
  lemma WalkIsLongest(f: Forest<Pins>, live: Branches, ns: string, query: seq<Token>, n: NodeId, matched: nat)
    requires Struct(f) && Tracks(f, live) && n in f.nodes && matched <= |query|
    requires f.place[n] == Pos(ns, query[..matched])
    requires matched < |query| ==> query[matched] !in f.nodes[n].children
    ensures matched == Longest(live, ns, query)
  {
    if 0 < matched {
      assert EdgeOk(f, n);
      assert Covers(f, n, f.place[n]);
    }
    if matched < |query| {
      ChildAt(f, n, query[matched]);
      assert query[..matched] + [query[matched]] == query[..matched + 1];
    }
    LongestIs(live, ns, query, matched);
  }

  /******* Fork *******/

  /** `g` is `f` with `t` added to the owners of every node above `q`. */
  ghost predicate PinnedDown(f: Forest<Pins>, g: Forest<Pins>, t: string, q: Pos) {
    && SameShape(f, g)
    && f.place.Keys == f.nodes.Keys
    && forall n | n in f.nodes && f.place[n].path != [] ::
         g.nodes[n].data.owners ==
           (if Above(f.place[n], q) then f.nodes[n].data.owners + {t} else f.nodes[n].data.owners)
  }

  ghost predicate Counted(f: Forest<Pins>) {
    f.place.Keys == f.nodes.Keys &&
    forall n | n in f.nodes && f.place[n].path != [] :: f.nodes[n].data.ref == |f.nodes[n].data.owners|
  }

  lemma PinnedCounted(f: Forest<Pins>, live: Branches)
    requires Pinned(f, live)
    ensures Counted(f)
  {
    forall n | n in f.nodes && f.place[n].path != [] ensures f.nodes[n].data.ref == |f.nodes[n].data.owners| {
      assert PinnedAt(f, live, n);
    }
  }

  /** Copying a live branch keeps every cached position and the alignment. */
  lemma ForkTracks(f: Forest<Pins>, live: Branches, parent: string, child: string)
    requires Struct(f) && Tracks(f, live) && parent in live && child !in live
    ensures Tracks(f, live[child := live[parent]])
  {
    var now := live[child := live[parent]];
    CachedWith(live, child, live[parent]);
    forall p | p in Prefixes(live[parent]) ensures p in Cached(live) {
      PrefixesAre(live[parent], p);
      CachedIs(live, p);
    }
    forall p, t | p in f.at && t in now && Above(p, now[t]) ensures Above(f.place[f.at[p]], now[t]) {
      Aligned(f, live, p, if t == child then parent else t);
    }
  }

  lemma SameShapeTracks(f: Forest<Pins>, g: Forest<Pins>, live: Branches)
    requires Tracks(f, live) && SameShape(f, g)
    ensures Tracks(g, live)
  {
    forall p, t | p in g.at && t in live && Above(p, live[t])
      ensures g.at[p] in g.place && Above(g.place[g.at[p]], live[t])
    {
      assert Above(f.place[f.at[p]], live[t]);
    }
  }

  /** Moving a branch within its namespace, or adding one to a live namespace. */
  lemma NamespacesMove(f: Forest<Pins>, g: Forest<Pins>, live: Branches, t: string, q: Pos)
    requires Namespaces(f, live) && f.roots == g.roots && q.ns in f.roots && (t in live ==> live[t].ns == q.ns)
    ensures Namespaces(g, live[t := q])
  {
    var now := live[t := q];
    forall ns | ns in g.roots ensures exists s :: s in now && now[s].ns == ns {
      var s :| s in live && live[s].ns == ns;
      assert s in now && now[s].ns == ns;
    }
  }

  lemma PinnedDownAt(f: Forest<Pins>, g: Forest<Pins>, live: Branches, t: string, q: Pos, n: NodeId)
    requires PinnedDown(f, g, t, q) && Counted(g) && (t in live ==> Above(live[t], q))
    requires n in f.nodes && f.place[n].path != []
    requires f.nodes[n].data.owners == Holders(live, f.place[n]) ||
             (Above(f.place[n], q) && f.nodes[n].data.owners == {t} && Holders(live, f.place[n]) == {})
    ensures PinnedAt(g, live[t := q], n)
  {
    HoldersWith(live, t, q, f.place[n]);
  }

  lemma ForkRepresents(f: Forest<Pins>, g: Forest<Pins>, live: Branches, parent: string, child: string)
    requires Represents(f, live) && parent in live && child !in live
    requires PinnedDown(f, g, child, live[parent]) && Counted(g)
    ensures Represents(g, live[child := live[parent]])
  {
    SameShapeStruct(f, g);
    ForkTracks(f, live, parent, child);
    SameShapeTracks(f, g, live[child := live[parent]]);
    forall n | n in g.nodes && g.place[n].path != [] ensures PinnedAt(g, live[child := live[parent]], n) {
      assert PinnedAt(f, live, n);
      PinnedDownAt(f, g, live, child, live[parent], n);
    }
    NamespacesMove(f, g, live, child, live[parent]);
  }

  /******* Extend *******/

  /** The arena after the uncached suffix, if any, has been attached. */
  ghost function Attached(f: Forest<Pins>, n: NodeId, t: string, full: seq<Token>, matched: nat, leaf: NodeId): Forest<Pins>
    requires Struct(f) && n in f.nodes && matched <= |full|
  {
    if matched < |full| then AddLeaf(f, n, full[matched..], leaf, Pins(1, {t})) else f
  }

  ghost predicate ReadyToAttach(f: Forest<Pins>, live: Branches, t: string, n: NodeId, full: seq<Token>, matched: nat, leaf: NodeId) {
    && Struct(f) && Tracks(f, live)
    && t in live && live[t].path <= full
    && n in f.nodes && leaf !in f.nodes && matched <= |full|
    && f.place[n] == Pos(live[t].ns, full[..matched])
    && (matched < |full| ==> full[matched] !in f.nodes[n].children)
  }

  lemma AttachedStruct(f: Forest<Pins>, t: string, n: NodeId, ns: string, full: seq<Token>, matched: nat, leaf: NodeId)
    requires Struct(f) && n in f.nodes && leaf !in f.nodes && matched <= |full|
    requires f.place[n] == Pos(ns, full[..matched])
    requires matched < |full| ==> full[matched] !in f.nodes[n].children
    ensures var g := Attached(f, n, t, full, matched, leaf);
            && Struct(g) && g.roots == f.roots
            && g.at.Keys == f.at.Keys + Segment(ns, full, matched, |full|)
            && |g.at| == |f.at| + |full| - matched
  {
    if matched < |full| {
      assert f.place[n].path + full[matched..] == full;
      assert full[matched..][0] == full[matched];
      AddLeafStruct(f, n, full[matched..], leaf, Pins(1, {t}));
    } else {
      assert Segment(ns, full, matched, |full|) == {};
    }
  }

  /** Everything the walk passed is on runs that stay on the new sequence. */
  lemma WalkedRuns(f: Forest<Pins>, live: Branches, t: string, n: NodeId, full: seq<Token>, matched: nat, leaf: NodeId, p: Pos)
    requires ReadyToAttach(f, live, t, n, full, matched, leaf)
    requires p in f.at && Above(p, Pos(live[t].ns, full))
    ensures |p.path| <= matched && Above(f.place[f.at[p]], Pos(live[t].ns, full))
  {
    if |p.path| > matched {
      AddLeafFresh(f, n, full[matched..], p) by {
        assert full[..matched] + full[matched..] == full;
      }
      assert false;
    }
    assert Covers(f, f.at[p], p);
    assert p.path == full[..|p.path|] == f.place[n].path[..|p.path|];
    Ancestors(f, n, |p.path|);
    assert f.place[n].path <= full;
  }

  lemma AttachedHas(f: Forest<Pins>, live: Branches, t: string, n: NodeId, full: seq<Token>, matched: nat, leaf: NodeId, p: Pos)
    requires ReadyToAttach(f, live, t, n, full, matched, leaf) && p in Prefixes(Pos(live[t].ns, full))
    ensures p in f.at.Keys + Segment(live[t].ns, full, matched, |full|)
  {
    PrefixesAre(Pos(live[t].ns, full), p);
    if |p.path| <= matched {
      assert p.path == f.place[n].path[..|p.path|];
      Ancestors(f, n, |p.path|);
    } else {
      assert p == Pos(live[t].ns, full[..|p.path|]);
    }
  }

  lemma AttachedCached(f: Forest<Pins>, live: Branches, t: string, n: NodeId, full: seq<Token>, matched: nat, leaf: NodeId)
    requires ReadyToAttach(f, live, t, n, full, matched, leaf)
    ensures f.at.Keys + Segment(live[t].ns, full, matched, |full|) == Cached(live[t := Pos(live[t].ns, full)])
  {
    var q := Pos(live[t].ns, full);
    CachedWith(live, t, q);
    forall p | p in Prefixes(q) ensures p in f.at.Keys + Segment(live[t].ns, full, matched, |full|) {
      AttachedHas(f, live, t, n, full, matched, leaf, p);
    }
    forall p | p in Segment(q.ns, full, matched, |full|) ensures p in Prefixes(q) { PrefixesAre(q, p); }
  }

  lemma AttachedAligned(f: Forest<Pins>, live: Branches, t: string, n: NodeId, full: seq<Token>, matched: nat, leaf: NodeId,
                        p: Pos, s: string)
    requires ReadyToAttach(f, live, t, n, full, matched, leaf)
    requires p in Attached(f, n, t, full, matched, leaf).at
    requires if s == t then Above(p, Pos(live[t].ns, full)) else s in live && Above(p, live[s])
    ensures var g := Attached(f, n, t, full, matched, leaf);
            g.at[p] in g.place && Above(g.place[g.at[p]], if s == t then Pos(live[t].ns, full) else live[s])
  {
    if p in f.at {
      if s == t { WalkedRuns(f, live, t, n, full, matched, leaf, p); } else { Aligned(f, live, p, s); }
      assert f.at[p] in f.nodes;
    } else {
      assert full[..matched] + full[matched..] == full;
      if s != t { CachedIs(live, p); }
    }
  }

  lemma AttachedTracks(f: Forest<Pins>, live: Branches, t: string, n: NodeId, full: seq<Token>, matched: nat, leaf: NodeId)
    requires ReadyToAttach(f, live, t, n, full, matched, leaf)
    ensures Tracks(Attached(f, n, t, full, matched, leaf), live[t := Pos(live[t].ns, full)])
  {
    hide RadixForest.Rooted, RadixForest.Linked, RadixForest.Indexed, Cached;
    var g := Attached(f, n, t, full, matched, leaf);
    var now := live[t := Pos(live[t].ns, full)];
    AttachedStruct(f, t, n, live[t].ns, full, matched, leaf);
    AttachedCached(f, live, t, n, full, matched, leaf);
    forall p, s | p in g.at && s in now && Above(p, now[s])
      ensures g.at[p] in g.place && Above(g.place[g.at[p]], now[s])
    {
      AttachedAligned(f, live, t, n, full, matched, leaf, p, s);
    }
  }

  lemma AttachedOwners(f: Forest<Pins>, live: Branches, t: string, n: NodeId, full: seq<Token>, matched: nat, leaf: NodeId, m: NodeId)
    requires ReadyToAttach(f, live, t, n, full, matched, leaf) && Pinned(f, live)
    requires m in Attached(f, n, t, full, matched, leaf).nodes && (m in f.nodes ==> f.place[m].path != [])
    ensures var g := Attached(f, n, t, full, matched, leaf);
            var q := Pos(live[t].ns, full);
            && m in g.place
            && (g.nodes[m].data.owners == Holders(live, g.place[m]) ||
                (Above(g.place[m], q) && g.nodes[m].data.owners == {t} && Holders(live, g.place[m]) == {}))
  {
    var q := Pos(live[t].ns, full);
    if m in f.nodes {
      assert PinnedAt(f, live, m);
    } else {
      assert full[..matched] + full[matched..] == full;
      AddLeafFresh(f, n, full[matched..], q);
      CachedIs(live, q);
    }
  }

  lemma ExtendRepresents(f: Forest<Pins>, g: Forest<Pins>, live: Branches, t: string, n: NodeId,
                         full: seq<Token>, matched: nat, leaf: NodeId)
    requires ReadyToAttach(f, live, t, n, full, matched, leaf) && Represents(f, live)
    requires PinnedDown(Attached(f, n, t, full, matched, leaf), g, t, Pos(live[t].ns, full)) && Counted(g)
    ensures Represents(g, live[t := Pos(live[t].ns, full)])
  {
    var mid := Attached(f, n, t, full, matched, leaf);
    var q := Pos(live[t].ns, full);
    AttachedStruct(f, t, n, live[t].ns, full, matched, leaf);
    AttachedTracks(f, live, t, n, full, matched, leaf);
    SameShapeStruct(mid, g);
    SameShapeTracks(mid, g, live[t := q]);
    forall m | m in g.nodes && g.place[m].path != [] ensures PinnedAt(g, live[t := q], m) {
      AttachedOwners(f, live, t, n, full, matched, leaf, m);
      PinnedDownAt(mid, g, live, t, q, m);
    }
    NamespacesMove(f, g, live, t, q);
  }

  /******* Kill *******/

  ghost predicate KeptNode(f: Forest<Pins>, g: Forest<Pins>, live: Branches, t: string, c: nat, n: NodeId)
    requires t in live
  {
    && n in f.nodes && n in g.nodes && n in f.place && n in g.place
    && g.place[n] == f.place[n]
    && g.nodes[n].tokens == f.nodes[n].tokens && g.nodes[n].parent == f.nodes[n].parent
    && (g.place[n].path != [] ==>
          && g.nodes[n].data.owners == f.nodes[n].data.owners -
               (if Above(f.place[n], live[t]) && |f.place[n].path| > c then {t} else {})
          && g.nodes[n].data.ref == |g.nodes[n].data.owners|)
  }

  /** The state of a kill of `t` once every run of its path beyond the first `c`
      tokens has been released: exclusive runs are gone, shared ones unpinned. */
  ghost predicate Released(f: Forest<Pins>, g: Forest<Pins>, live: Branches, t: string, c: nat)
    requires t in live
  {
    && Struct(g) && g.roots == f.roots
    && g.at.Keys == (set p | p in f.at && !(Holders(live, p) == {t} && |p.path| > c))
    && (forall p | p in g.at :: g.at[p] == f.at[p])
    && (forall n {:trigger KeptNode(f, g, live, t, c, n)} | n in g.nodes :: KeptNode(f, g, live, t, c, n))
  }

  lemma ReleaseStart(f: Forest<Pins>, live: Branches, t: string)
    requires Represents(f, live) && t in live
    ensures Released(f, f, live, t, |live[t].path|)
  {
    forall p | p in f.at ensures !(Holders(live, p) == {t} && |p.path| > |live[t].path|) {
      if Holders(live, p) == {t} { assert t in Holders(live, p); }
    }
    assert f.at.Keys == (set p | p in f.at && !(Holders(live, p) == {t} && |p.path| > |live[t].path|));
    PinnedCounted(f, live);
    forall n | n in f.nodes ensures KeptNode(f, f, live, t, |live[t].path|, n) { }
  }

  /** The node of `t`'s path that ends at `c` is still there, still pinned by `t`. */
  lemma ReleaseNext(f: Forest<Pins>, g: Forest<Pins>, live: Branches, t: string, n: NodeId)
    requires Represents(f, live) && t in live && n in f.nodes
    requires f.place[n].path != [] && Above(f.place[n], live[t])
    requires Released(f, g, live, t, |f.place[n].path|)
    ensures n in g.nodes && KeptNode(f, g, live, t, |f.place[n].path|, n)
    ensures g.nodes[n].data == Pins(|Holders(live, f.place[n])|, Holders(live, f.place[n]))
  {
    assert EdgeOk(f, n);
    assert Covers(f, n, f.place[n]);
    assert f.place[n] in g.at;
    assert g.at[f.place[n]] == n;
    assert KeptNode(f, g, live, t, |f.place[n].path|, n);
    assert PinnedAt(f, live, n);
  }

  /** Below a run only `t` holds, everything has already been released. */
  lemma ReleaseNoChild(f: Forest<Pins>, g: Forest<Pins>, live: Branches, t: string, n: NodeId, k: Token)
    requires Represents(f, live) && t in live && n in f.nodes && n in g.nodes
    requires f.place[n].path != [] && Above(f.place[n], live[t])
    requires Released(f, g, live, t, |f.place[n].path|)
    requires Holders(live, f.place[n]) == {t}
    ensures k !in g.nodes[n].children
  {
    if k in g.nodes[n].children {
      var c := g.nodes[n].children[k];
      assert ChildOk(g, n, k) && EdgeOk(g, c);
      assert KeptNode(f, g, live, t, |f.place[n].path|, n);
      assert KeptNode(f, g, live, t, |f.place[n].path|, c);
      HoldersShrink(live, f.place[n], f.place[c]);
      assert Covers(g, c, g.place[c]);
      CachedIs(live, f.place[c]);
      assert false;
    }
  }

  lemma ReleaseLeaf(f: Forest<Pins>, g: Forest<Pins>, live: Branches, t: string, n: NodeId)
    requires Represents(f, live) && t in live && n in f.nodes && n in g.nodes
    requires f.place[n].path != [] && Above(f.place[n], live[t])
    requires Released(f, g, live, t, |f.place[n].path|)
    requires Holders(live, f.place[n]) == {t}
    ensures g.nodes[n].children.Keys == {}
  {
    if g.nodes[n].children.Keys != {} {
      SomeKey(g.nodes[n].children);
      var k: Token :| k in g.nodes[n].children;
      ReleaseNoChild(f, g, live, t, n, k);
      assert false;
    }
  }

  /** Which positions leave when `c` moves up over the run of `n`. */
  lemma ReleaseRun(f: Forest<Pins>, g: Forest<Pins>, live: Branches, t: string, n: NodeId, p: Pos)
    requires Represents(f, live) && t in live && n in f.nodes
    requires f.place[n].path != [] && Above(f.place[n], live[t])
    requires Released(f, g, live, t, |f.place[n].path|) && p in g.at
    ensures (Holders(live, p) == {t} && |p.path| > |f.place[n].path| - |f.nodes[n].tokens|)
            <==> (g.at[p] == n && Holders(live, f.place[n]) == {t})
  {
    assert EdgeOk(f, n);
    if g.at[p] == n {
      assert Covers(f, f.at[p], p);
      SameHolders(f, live, p);
    } else if Holders(live, p) == {t} && |p.path| > |f.place[n].path| - |f.nodes[n].tokens| {
      assert t in Holders(live, p);
      assert |p.path| <= |f.place[n].path|;
      assert p.path == live[t].path[..|p.path|] == f.place[n].path[..|p.path|];
      assert Covers(f, n, p);
      assert false;
    }
  }

  lemma ReleaseKeeps(f: Forest<Pins>, g: Forest<Pins>, live: Branches, t: string, n: NodeId, m: NodeId)
    requires Represents(f, live) && t in live && n in f.nodes
    requires f.place[n].path != [] && Above(f.place[n], live[t])
    requires Released(f, g, live, t, |f.place[n].path|)
    requires m in g.nodes && m != n
    ensures |f.nodes[n].tokens| <= |f.place[n].path|
    ensures KeptNode(f, g, live, t, |f.place[n].path| - |f.nodes[n].tokens|, m)
  {
    assert EdgeOk(f, n);
    assert KeptNode(f, g, live, t, |f.place[n].path|, m);
    if f.place[m].path != [] && Above(f.place[m], live[t])
       && |f.place[n].path| - |f.nodes[n].tokens| < |f.place[m].path| <= |f.place[n].path| {
      assert EdgeOk(f, m);
      assert f.place[m].path == f.place[n].path[..|f.place[m].path|];
      assert Covers(f, n, f.place[m]) && Covers(f, m, f.place[m]);
      assert false;
    }
  }

  lemma ReleaseSharedKeys(f: Forest<Pins>, g: Forest<Pins>, live: Branches, t: string, n: NodeId)
    requires Represents(f, live) && t in live && n in f.nodes
    requires f.place[n].path != [] && Above(f.place[n], live[t])
    requires Released(f, g, live, t, |f.place[n].path|) && n in g.nodes
    requires Holders(live, f.place[n]) != {t}
    ensures |f.nodes[n].tokens| <= |f.place[n].path|
    ensures g.at.Keys ==
              (set p | p in f.at && !(Holders(live, p) == {t} && |p.path| > |f.place[n].path| - |f.nodes[n].tokens|))
  {
    assert EdgeOk(f, n);
    var c := |f.place[n].path| - |f.nodes[n].tokens|;
    forall p | p in f.at ensures p in g.at <==> !(Holders(live, p) == {t} && |p.path| > c) {
      if p in g.at { ReleaseRun(f, g, live, t, n, p); }
    }
  }

  lemma PinnedHere(f: Forest<Pins>, live: Branches, n: NodeId)
    requires Represents(f, live) && n in f.nodes && f.place[n].path != []
    ensures PinnedAt(f, live, n) && EdgeOk(f, n)
  {
  }

  lemma Longer(f: Forest<Pins>, n: NodeId)
    requires EdgeOk(f, n)
    ensures 0 < |f.nodes[n].tokens| <= |f.place[n].path|
  {
  }

  /** Repinning one node leaves what is said of the others, and says it of that one for a lower cut. */
  lemma Repinned(f: Forest<Pins>, g: Forest<Pins>, live: Branches, t: string, c: nat, n: NodeId, m: NodeId, pins: Pins)
    requires t in live && n in g.nodes && n in f.nodes && n in f.place && KeptNode(f, g, live, t, if m == n then |f.place[n].path| else c, m)
    requires m == n ==> Above(f.place[n], live[t]) && c < |f.place[n].path|
    requires m == n ==> pins.owners == f.nodes[n].data.owners - {t} && pins.ref == |pins.owners|
    ensures KeptNode(f, SetData(g, n, pins), live, t, c, m)
  {
  }

  lemma ReleaseSharedNode(f: Forest<Pins>, g: Forest<Pins>, live: Branches, t: string, n: NodeId, m: NodeId)
    requires Represents(f, live) && t in live && n in f.nodes
    requires f.place[n].path != [] && Above(f.place[n], live[t])
    requires Released(f, g, live, t, |f.place[n].path|) && n in g.nodes && m in g.nodes
    ensures |f.nodes[n].tokens| <= |f.place[n].path|
    ensures var H := Holders(live, f.place[n]);
            KeptNode(f, SetData(g, n, Pins(|H| - 1, H - {t})), live, t, |f.place[n].path| - |f.nodes[n].tokens|, m)
  {
    hide RadixForest.Struct, Represents, Released, EdgeOk, KeptNode, RadixForest.SetData, Holders, Above;
    PinnedHere(f, live, n);
    Longer(f, n);
    var H, c := Holders(live, f.place[n]), |f.place[n].path| - |f.nodes[n].tokens|;
    HolderOf(live, t, f.place[n]);
    assert |H - {t}| == |H| - 1;
    if m != n { ReleaseKeeps(f, g, live, t, n, m); } else { ReleaseNext(f, g, live, t, n); }
    Repinned(f, g, live, t, c, n, m, Pins(|H| - 1, H - {t}));
  }

  /** Releasing a run shared with others only unpins it. */
  lemma ReleaseShared(f: Forest<Pins>, g: Forest<Pins>, live: Branches, t: string, n: NodeId)
    requires Represents(f, live) && t in live && n in f.nodes
    requires f.place[n].path != [] && Above(f.place[n], live[t])
    requires Released(f, g, live, t, |f.place[n].path|) && n in g.nodes
    requires Holders(live, f.place[n]) != {t}
    ensures |f.nodes[n].tokens| <= |f.place[n].path|
    ensures var H := Holders(live, f.place[n]);
            Released(f, SetData(g, n, Pins(|H| - 1, H - {t})), live, t, |f.place[n].path| - |f.nodes[n].tokens|)
  {
    var H := Holders(live, f.place[n]);
    var h := SetData(g, n, Pins(|H| - 1, H - {t}));
    ReleaseSharedKeys(f, g, live, t, n);
    SameShapeStruct(g, h);
    forall m | m in h.nodes
      ensures KeptNode(f, h, live, t, |f.place[n].path| - |f.nodes[n].tokens|, m)
    {
      ReleaseSharedNode(f, g, live, t, n, m);
    }
  }

  lemma ReleasedKeys(f: Forest<Pins>, g: Forest<Pins>, live: Branches, t: string, n: NodeId)
    requires Represents(f, live) && t in live && n in f.nodes
    requires f.place[n].path != [] && Above(f.place[n], live[t])
    requires Released(f, g, live, t, |f.place[n].path|) && n in g.nodes
    requires Holders(live, f.place[n]) == {t}
    ensures |f.nodes[n].tokens| <= |f.place[n].path|
    ensures g.at.Keys - Run(g, n) ==
              (set p | p in f.at && !(Holders(live, p) == {t} && |p.path| > |f.place[n].path| - |f.nodes[n].tokens|))
  {
    assert EdgeOk(f, n);
    var c := |f.place[n].path| - |f.nodes[n].tokens|;
    forall p | p in f.at
      ensures p in g.at.Keys - Run(g, n) <==> !(Holders(live, p) == {t} && |p.path| > c)
    {
      if p in g.at { ReleaseRun(f, g, live, t, n, p); }
    }
  }

  lemma RemovedKept(f: Forest<Pins>, g: Forest<Pins>, live: Branches, t: string, n: NodeId, m: NodeId)
    requires Represents(f, live) && t in live && n in f.nodes
    requires f.place[n].path != [] && Above(f.place[n], live[t])
    requires Released(f, g, live, t, |f.place[n].path|) && n in g.nodes && g.place[n].path != []
    requires m in g.nodes && m != n
    ensures |f.nodes[n].tokens| <= |f.place[n].path|
    ensures KeptNode(f, RemoveLeaf(g, n), live, t, |f.place[n].path| - |f.nodes[n].tokens|, m)
  {
    assert EdgeOk(g, n);
    ReleaseKeeps(f, g, live, t, n, m);
  }

  /** Releasing a run only `t` held removes it. */
  lemma ReleaseExclusive(f: Forest<Pins>, g: Forest<Pins>, live: Branches, t: string, n: NodeId)
    requires Represents(f, live) && t in live && n in f.nodes
    requires f.place[n].path != [] && Above(f.place[n], live[t])
    requires Released(f, g, live, t, |f.place[n].path|) && n in g.nodes && g.place[n].path != []
    requires Holders(live, f.place[n]) == {t}
    ensures |f.nodes[n].tokens| <= |f.place[n].path|
    ensures Released(f, RemoveLeaf(g, n), live, t, |f.place[n].path| - |f.nodes[n].tokens|)
    ensures |RemoveLeaf(g, n).at| == |g.at| - |f.nodes[n].tokens|
  {
    ReleaseLeaf(f, g, live, t, n);
    RemoveLeafStruct(g, n);
    ReleasedKeys(f, g, live, t, n);
    ReleaseNext(f, g, live, t, n);
    var h := RemoveLeaf(g, n);
    forall m | m in h.nodes
      ensures KeptNode(f, h, live, t, |f.place[n].path| - |f.nodes[n].tokens|, m)
    {
      RemovedKept(f, g, live, t, n, m);
    }
  }

  lemma ReleasedCached(f: Forest<Pins>, g: Forest<Pins>, live: Branches, t: string)
    requires f.at.Keys == Cached(live) && t in live
    requires g.at.Keys == (set p | p in f.at && !(Holders(live, p) == {t} && |p.path| > 0))
    ensures g.at.Keys == Cached(live - {t})
  {
    var rest := live - {t};
    forall p ensures p in g.at <==> p in Cached(rest) {
      CachedIs(live, p);
      CachedIs(rest, p);
      assert Holders(rest, p) == Holders(live, p) - {t};
      assert t in Holders(live, p) ==> Holders(live, p) == Holders(rest, p) + {t};
    }
  }

  lemma ReleasedPinned(f: Forest<Pins>, g: Forest<Pins>, live: Branches, t: string, n: NodeId)
    requires Pinned(f, live) && t in live && KeptNode(f, g, live, t, 0, n) && g.place[n].path != []
    ensures PinnedAt(g, live - {t}, n)
  {
    assert PinnedAt(f, live, n);
    assert Holders(live - {t}, f.place[n]) == Holders(live, f.place[n]) - {t};
  }

  /** Once the whole path is released the rest of the branches is represented,
      except that the root of an emptied namespace is still there. */
  lemma ReleasedAll(f: Forest<Pins>, g: Forest<Pins>, live: Branches, t: string)
    requires Represents(f, live) && t in live && Released(f, g, live, t, 0)
    ensures Tracks(g, live - {t}) && Pinned(g, live - {t})
    ensures |f.at| - |g.at| == |Exclusive(live, t)|
  {
    var rest := live - {t};
    ReleasedCached(f, g, live, t);
    CachedWithout(live, t);
    forall p, s | p in g.at && s in rest && Above(p, rest[s])
      ensures g.at[p] in g.place && Above(g.place[g.at[p]], rest[s])
    {
      assert KeptNode(f, g, live, t, 0, g.at[p]);
      Aligned(f, live, p, s);
    }
    forall n | n in g.nodes && g.place[n].path != [] ensures PinnedAt(g, rest, n) {
      assert KeptNode(f, g, live, t, 0, n);
      ReleasedPinned(f, g, live, t, n);
    }
    assert |f.at.Keys| - |g.at.Keys| == |Exclusive(live, t)|;
  }

  /** The namespace survives while it has another branch ... */
  /** The namespaces of the remaining branches, if the victim's has another one. */
  lemma NamespacesStay(f: Forest<Pins>, g: Forest<Pins>, live: Branches, t: string)
    requires Namespaces(f, live) && g.roots == f.roots && t in live
    requires exists s :: s in live && s != t && live[s].ns == live[t].ns
    ensures Namespaces(g, live - {t})
  {
    var rest := live - {t};
    forall ns | ns in g.roots ensures exists s :: s in rest && rest[s].ns == ns {
      var s :| s in live && live[s].ns == ns;
      if s == t {
        var u :| u in live && u != t && live[u].ns == live[t].ns;
        assert u in rest && rest[u].ns == ns;
      } else {
        assert s in rest && rest[s].ns == ns;
      }
    }
  }

  lemma KillKeepsNamespace(f: Forest<Pins>, g: Forest<Pins>, live: Branches, t: string)
    requires Represents(f, live) && t in live && Released(f, g, live, t, 0)
    requires exists s :: s in live && s != t && live[s].ns == live[t].ns
    ensures Represents(g, live - {t})
  {
    hide RadixForest.Struct, Tracks, Namespaces, Pinned, Cached, Holders, KeptNode;
    ReleasedAll(f, g, live, t);
    NamespacesStay(f, g, live, t);
  }

  lemma RootlessRest(g: Forest<Pins>, rest: Branches, ns: string)
    requires Struct(g) && Tracks(g, rest) && Pinned(g, rest) && ns in g.roots
    requires forall p | p in g.at :: p.ns != ns
    ensures Tracks(RemoveRoot(g, ns), rest) && Pinned(RemoveRoot(g, ns), rest)
  {
    var h := RemoveRoot(g, ns);
    forall p, s | p in h.at && s in rest && Above(p, rest[s])
      ensures h.at[p] in h.place && Above(h.place[h.at[p]], rest[s])
    {
      Aligned(g, rest, p, s);
      assert Covers(g, g.at[p], p);
    }
    forall p | p in h.at ensures h.at[p] in h.place { assert Covers(g, g.at[p], p); }
    forall n | n in h.nodes && h.place[n].path != [] ensures PinnedAt(h, rest, n) { assert PinnedAt(g, rest, n); }
  }

  lemma NamespacesDrop(f: Forest<Pins>, h: Forest<Pins>, live: Branches, t: string)
    requires Namespaces(f, live) && t in live && h.roots == f.roots - {live[t].ns}
    requires forall s | s in live && s != t :: live[s].ns != live[t].ns
    ensures Namespaces(h, live - {t})
  {
    var rest := live - {t};
    forall m | m in h.roots ensures exists s :: s in rest && rest[s].ns == m {
      var s :| s in live && live[s].ns == m;
      assert s in rest && rest[s].ns == m;
    }
  }

  /** ... and is dropped with its last one. */
  lemma KillDropsNamespace(f: Forest<Pins>, g: Forest<Pins>, live: Branches, t: string)
    requires Represents(f, live) && t in live && Released(f, g, live, t, 0)
    requires forall s | s in live && s != t :: live[s].ns != live[t].ns
    ensures live[t].ns in g.roots
    ensures Represents(RemoveRoot(g, live[t].ns), live - {t})
  {
    ReleasedAll(f, g, live, t);
    var rest := live - {t};
    var ns := live[t].ns;
    forall p | p in g.at ensures p.ns != ns {
      CachedIs(rest, p);
    }
    RemoveRootStruct(g, ns);
    RootlessRest(g, rest, ns);
    NamespacesDrop(f, RemoveRoot(g, ns), live, t);
  }

  /******* Create *******/

  lemma CreateTracks(f: Forest<Pins>, live: Branches, t: string, root: NodeId, parent: NodeId)
    requires Struct(f) && Tracks(f, live) && t !in live && root !in f.nodes
    ensures Tracks(AddRoot(f, t, root, parent, Pins(0, {})), live[t := Pos(t, [])])
  {
    var g := AddRoot(f, t, root, parent, Pins(0, {}));
    var now := live[t := Pos(t, [])];
    CachedWith(live, t, Pos(t, []));
    assert Prefixes(Pos(t, [])) == {};
    forall p, s | p in g.at && s in now && Above(p, now[s]) ensures g.at[p] in g.place && Above(g.place[g.at[p]], now[s]) {
      assert Covers(f, f.at[p], p);
      assert s != t;
      Aligned(f, live, p, s);
    }
  }

  lemma CreatePinned(f: Forest<Pins>, live: Branches, t: string, root: NodeId, parent: NodeId)
    requires Pinned(f, live) && t !in live && root !in f.nodes
    ensures Pinned(AddRoot(f, t, root, parent, Pins(0, {})), live[t := Pos(t, [])])
  {
    var g := AddRoot(f, t, root, parent, Pins(0, {}));
    forall n | n in g.nodes && g.place[n].path != [] ensures PinnedAt(g, live[t := Pos(t, [])], n) {
      assert PinnedAt(f, live, n);
      HoldersWith(live, t, Pos(t, []), f.place[n]);
    }
  }

  lemma CreateRepresents(f: Forest<Pins>, live: Branches, t: string, root: NodeId, parent: NodeId)
    requires Represents(f, live) && t !in live && t !in f.roots && root !in f.nodes
    ensures Represents(AddRoot(f, t, root, parent, Pins(0, {})), live[t := Pos(t, [])])
  {
    var g := AddRoot(f, t, root, parent, Pins(0, {}));
    var now := live[t := Pos(t, [])];
    AddRootStruct(f, t, root, parent, Pins(0, {}));
    CreateTracks(f, live, t, root, parent);
    CreatePinned(f, live, t, root, parent);
    assert t in now && now[t].ns == t;
    forall ns | ns in f.roots ensures exists s :: s in now && now[s].ns == ns {
      var s :| s in live && live[s].ns == ns;
      assert s in now && now[s].ns == ns;
    }
  }

  /** A root without children represents no branch that has tokens, whatever
      node places and index one tries. */
  lemma BareRootHoldsNothing(f: Forest<Pins>, live: Branches, t: string)
    requires t in live && live[t].path != []
    requires live[t].ns in f.roots && f.roots[live[t].ns] in f.nodes
    requires f.nodes[f.roots[live[t].ns]].children.Keys == {}
    ensures !Represents(f, live)
  {
    if Represents(f, live) {
      Follow(f, live, t, f.roots[live[t].ns]);
      assert false;
    }
  }
}
