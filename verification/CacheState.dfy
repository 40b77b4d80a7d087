/**
The whole state of the tree-keyed cache as one value: the arena, the branches it
represents, and the statistics.  `Sound` is its invariant; the lemmas say that
each operation keeps it.
*/
module CacheState {
  import opened Common
  import opened RadixForest
  import opened BranchTrie
  import opened PinnedForest
  import opened PinnedWalks

  datatype Stats = Stats(resident: int, logical: int, charged: int, saved: int, evicted: int)

  /** Conservation and bounds: what was charged and not yet freed is resident,
      nothing was ever evicted, and capacity and budgets hold. */
  ghost predicate Balanced(live: Branches, stats: Stats, freed: int, capacity: nat, budget: Option<nat>) {
    && stats.resident == |Cached(live)|
    && stats.logical == Logical(live)
    && stats.charged - freed == stats.resident
    && stats.evicted == 0
    && stats.resident <= capacity
    && WithinBudget(live, budget)
  }

  ghost predicate Sound(f: Forest<Pins>, live: Branches, next: NodeId, stats: Stats, freed: int, capacity: nat, budget: Option<nat>) {
    && Represents(f, live)
    && (forall n | n in f.nodes :: n < next)
    && Balanced(live, stats, freed, capacity, budget)
  }

  lemma SoundParts(f: Forest<Pins>, live: Branches, next: NodeId, stats: Stats, freed: int, capacity: nat, budget: Option<nat>)
    requires Sound(f, live, next, stats, freed, capacity, budget)
    ensures Represents(f, live) && Struct(f) && Tracks(f, live) && next !in f.nodes && f.place.Keys == f.nodes.Keys
    ensures Balanced(live, stats, freed, capacity, budget)
  {
  }

  lemma EmptySound(capacity: nat, budget: Option<nat>)
    ensures Sound(Forest(map[], map[], map[], map[]), map[], 0, Stats(0, 0, 0, 0, 0), 0, capacity, budget)
  {
    assert Cached(map[]) == {};
    assert forall ns :: CachedIn(map[], ns) == {};
  }

  /** Sharing never makes the residency exceed the logical size. */
  lemma ResidentAtMostLogical(live: Branches, stats: Stats, freed: int, capacity: nat, budget: Option<nat>)
    requires Balanced(live, stats, freed, capacity, budget)
    ensures 0 <= stats.resident <= stats.logical
  {
    CachedAtMostLogical(live);
  }

  lemma SplitSound(f: Forest<Pins>, live: Branches, next: NodeId, stats: Stats, freed: int, capacity: nat, budget: Option<nat>,
                   n: NodeId, k: nat)
    requires Sound(f, live, next, stats, freed, capacity, budget)
    requires n in f.nodes && n in f.place && f.place[n].path != [] && 0 < k < |f.nodes[n].tokens|
    ensures Sound(Split(f, n, k, next), live, next + 1, stats, freed, capacity, budget)
  {
    hide RadixForest.Rooted, RadixForest.Linked, RadixForest.Indexed;
    hide PinnedForest.Tracks, PinnedForest.Namespaces, PinnedForest.Pinned;
    EdgeAt(f, n);
    SplitRepresents(f, live, n, k, next);
  }

  /** The arena after `create_tree`: a fresh root, the overwritten one garbage. */
  ghost function Recreated(f: Forest<Pins>, t: string, root: NodeId): Forest<Pins> {
    AddRoot(if t in f.roots then RemoveRoot(f, t) else f, t, root, root, Pins(0, {}))
  }

  lemma RecreatedParts(f: Forest<Pins>, t: string, root: NodeId)
    ensures var g := Recreated(f, t, root);
            && g.nodes == (if t in f.roots then f.nodes - {f.roots[t]} else f.nodes)[root := Node([], map[], root, Pins(0, {}))]
            && g.roots == f.roots[t := root]
            && g.at == f.at
  {
  }

  /** `create_tree` keeps the invariant exactly when it does not clobber. */
  lemma CreateSound(f: Forest<Pins>, live: Branches, next: NodeId, stats: Stats, freed: int, capacity: nat, budget: Option<nat>, t: string)
    requires Sound(f, live, next, stats, freed, capacity, budget) && t !in live
    ensures Sound(Recreated(f, t, next), live[t := Pos(t, [])], next + 1, stats, freed, capacity, budget) <==> !Clobbers(live, t)
  {
    hide RadixForest.Rooted, RadixForest.Linked, RadixForest.Indexed;
    hide PinnedForest.Tracks, PinnedForest.Namespaces, PinnedForest.Pinned;
    CreateBooks(live, t, budget);
    var g := Recreated(f, t, next);
    if Clobbers(live, t) {
      var s :| s in live && live[s].ns == t && live[s].path != [];
      BareRootHoldsNothing(g, live[t := Pos(t, [])], s);
    } else if t in f.roots {
      CreateOverEmpty(f, live, t, next, next);
    } else {
      CreateRepresents(f, live, t, next, next);
    }
  }

  lemma ForkSound(f: Forest<Pins>, g: Forest<Pins>, live: Branches, next: NodeId, stats: Stats, freed: int, capacity: nat, budget: Option<nat>,
                  parent: string, child: string)
    requires Sound(f, live, next, stats, freed, capacity, budget) && parent in live && child !in live
    requires PinnedDown(f, g, child, live[parent]) && Counted(g)
    ensures Sound(g, live[child := live[parent]], next,
                  stats.(saved := stats.saved + |live[parent].path|, logical := stats.logical + |live[parent].path|),
                  freed, capacity, budget)
  {
    hide RadixForest.Rooted, RadixForest.Linked, RadixForest.Indexed;
    hide PinnedForest.Tracks, PinnedForest.Namespaces, PinnedForest.Pinned;
    ForkRepresents(f, g, live, parent, child);
    ForkBooks(live, parent, child, budget);
  }

  lemma ExtendBalanced(live: Branches, stats: Stats, freed: int, capacity: nat, budget: Option<nat>,
                       t: string, full: seq<Token>, matched: nat, saved: int)
    requires Balanced(live, stats, freed, capacity, budget)
    requires t in live && live[t].path <= full && matched == Longest(live, live[t].ns, full)
    requires |Cached(live[t := Pos(live[t].ns, full)])| == |Cached(live)| + |full| - matched
    requires budget.Some? ==> |CachedIn(live, live[t].ns)| + |full| - matched <= budget.value
    requires stats.resident + |full| - matched <= capacity
    ensures Balanced(live[t := Pos(live[t].ns, full)],
                     Stats(stats.resident + |full| - matched, stats.logical + |full| - |live[t].path|,
                           stats.charged + |full| - matched, saved, stats.evicted),
                     freed, capacity, budget)
  {
    BudgetExtend(live, t, full, matched, budget);
    LogicalWith(live, t, Pos(live[t].ns, full));
    LogicalRemove(live, t);
  }

  lemma AttachedSize(f: Forest<Pins>, live: Branches, t: string, n: NodeId, full: seq<Token>, matched: nat, leaf: NodeId)
    requires ReadyToAttach(f, live, t, n, full, matched, leaf)
    ensures |Cached(live[t := Pos(live[t].ns, full)])| == |Cached(live)| + |full| - matched
  {
    hide RadixForest.Rooted, RadixForest.Linked, RadixForest.Indexed, PinnedForest.Tracks, Attached;
    AttachedStruct(f, t, n, live[t].ns, full, matched, leaf);
    AttachedTracks(f, live, t, n, full, matched, leaf);
    CachedSizes(f, Attached(f, n, t, full, matched, leaf), live, live[t := Pos(live[t].ns, full)]);
  }

  lemma ExtendSound(f: Forest<Pins>, g: Forest<Pins>, live: Branches, next: NodeId, stats: Stats, freed: int, capacity: nat, budget: Option<nat>,
                    t: string, n: NodeId, full: seq<Token>, matched: nat, saved: int)
    requires Sound(f, live, next, stats, freed, capacity, budget)
    requires ReadyToAttach(f, live, t, n, full, matched, next)
    requires PinnedDown(Attached(f, n, t, full, matched, next), g, t, Pos(live[t].ns, full)) && Counted(g)
    requires budget.Some? ==> |CachedIn(live, live[t].ns)| + |full| - matched <= budget.value
    requires stats.resident + |full| - matched <= capacity
    ensures matched == Longest(live, live[t].ns, full)
    ensures Sound(g, live[t := Pos(live[t].ns, full)], next + 1,
                  Stats(stats.resident + |full| - matched, stats.logical + |full| - |live[t].path|,
                        stats.charged + |full| - matched, saved, stats.evicted),
                  freed, capacity, budget)
  {
    hide RadixForest.Rooted, RadixForest.Linked, RadixForest.Indexed;
    hide PinnedForest.Tracks, PinnedForest.Namespaces, PinnedForest.Pinned, PinnedForest.PinnedDown, PinnedForest.Counted;
    hide Balanced, BranchTrie.Cached, BranchTrie.Holders, PinnedWalks.CachedIn;
    var mid := Attached(f, n, t, full, matched, next);
    WalkIsLongest(f, live, live[t].ns, full, n, matched);
    AttachedSize(f, live, t, n, full, matched, next);
    ExtendRepresents(f, g, live, t, n, full, matched, next);
    PinShape(mid, g, t, Pos(live[t].ns, full), n);
    ExtendBalanced(live, stats, freed, capacity, budget, t, full, matched, saved);
  }

  /** The arena after `kill`, its namespace dropped with the last branch. */
  ghost function Pruned(g: Forest<Pins>, rest: Branches, ns: string): Forest<Pins> {
    if ns in g.roots && forall s | s in rest :: rest[s].ns != ns then RemoveRoot(g, ns) else g
  }

  lemma PrunedParts(g: Forest<Pins>, rest: Branches, ns: string)
    requires ns in g.roots
    ensures var h := Pruned(g, rest, ns);
            if exists s :: s in rest && rest[s].ns == ns then h == g
            else h.nodes == g.nodes - {g.roots[ns]} && h.roots == g.roots - {ns}
  {
  }

  lemma ReleasedNodes(f: Forest<Pins>, g: Forest<Pins>, live: Branches, t: string)
    requires t in live && Released(f, g, live, t, 0)
    ensures g.nodes.Keys <= f.nodes.Keys && g.roots == f.roots
  {
    forall n | n in g.nodes ensures n in f.nodes { assert KeptNode(f, g, live, t, 0, n); }
  }

  lemma KillRepresents(f: Forest<Pins>, g: Forest<Pins>, live: Branches, t: string)
    requires Represents(f, live) && t in live && Released(f, g, live, t, 0)
    ensures Represents(Pruned(g, live - {t}, live[t].ns), live - {t})
    ensures Pruned(g, live - {t}, live[t].ns).nodes.Keys <= f.nodes.Keys
    ensures live[t].ns in g.roots && g.roots == f.roots
  {
    hide RadixForest.Rooted, RadixForest.Linked, RadixForest.Indexed, PinnedForest.Represents, PinnedForest.Released;
    ReleasedNodes(f, g, live, t);
    NamespaceOf(f, live, t);
    if exists s :: s in live && s != t && live[s].ns == live[t].ns {
      var s :| s in live && s != t && live[s].ns == live[t].ns;
      assert s in live - {t} && (live - {t})[s].ns == live[t].ns;
      KillKeepsNamespace(f, g, live, t);
    } else {
      KillDropsNamespace(f, g, live, t);
    }
  }

  lemma KillSound(f: Forest<Pins>, g: Forest<Pins>, live: Branches, next: NodeId, stats: Stats, freed: int, capacity: nat, budget: Option<nat>, t: string)
    requires Sound(f, live, next, stats, freed, capacity, budget) && t in live && Released(f, g, live, t, 0)
    ensures |f.at| - |g.at| == |Exclusive(live, t)|
    ensures live[t].ns in g.roots && g.roots == f.roots
    ensures Sound(Pruned(g, live - {t}, live[t].ns), live - {t}, next,
                  stats.(resident := stats.resident - |Exclusive(live, t)|, logical := stats.logical - |live[t].path|),
                  freed + |Exclusive(live, t)|, capacity, budget)
  {
    hide PinnedForest.Represents, PinnedForest.Released, Pruned;
    hide BranchTrie.Cached, BranchTrie.Exclusive, BranchTrie.Holders, PinnedWalks.WithinBudget;
    ReleasedAll(f, g, live, t);
    KillRepresents(f, g, live, t);
    KillBooks(live, t, budget);
  }
}
