/**
`agentfork/kv/tree_cache.py`: the tree-keyed copy-on-write radix cache.

`live` is the abstract state, a map from live branch id to the position it has
reached.  Every contract below speaks about `live` and the statistics; the
arena is hidden behind `Valid()`.
*/
module TreeCache {
  import opened Common
  import opened RadixForest
  import opened BranchTrie
  import opened PinnedForest
  import opened PinnedWalks
  import opened CacheState

  datatype TreeId = TreeId(treeId: string, parentId: Option<string>, childSeq: nat, namespace: string)

  /** The two dictionaries of the source describe the branches of the model. */
  ghost predicate Tied(trees: map<string, TreeId>, tokens: map<string, seq<Token>>, live: Branches) {
    && trees.Keys == live.Keys && tokens.Keys == live.Keys
    && forall t | t in live :: live[t] == Pos(trees[t].namespace, tokens[t])
  }

  lemma TiedAt(trees: map<string, TreeId>, tokens: map<string, seq<Token>>, live: Branches, t: string)
    requires Tied(trees, tokens, live)
    ensures t in trees <==> t in live
    ensures t in tokens <==> t in live
    ensures t in live ==> live[t] == Pos(trees[t].namespace, tokens[t])
  {
  }

  lemma TiedSet(trees: map<string, TreeId>, tokens: map<string, seq<Token>>, live: Branches, t: string, id: TreeId, path: seq<Token>)
    requires Tied(trees, tokens, live)
    ensures Tied(trees[t := id], tokens[t := path], live[t := Pos(id.namespace, path)])
  {
  }

  lemma TiedMove(trees: map<string, TreeId>, tokens: map<string, seq<Token>>, live: Branches, t: string, path: seq<Token>)
    requires Tied(trees, tokens, live) && t in trees
    ensures Tied(trees, tokens[t := path], live[t := Pos(trees[t].namespace, path)])
  {
    assert trees[t := trees[t]] == trees;
  }

  lemma TiedNamespaces(trees: map<string, TreeId>, tokens: map<string, seq<Token>>, live: Branches, ns: string)
    requires Tied(trees, tokens, live)
    ensures (exists s :: s in trees && trees[s].namespace == ns) <==> (exists s :: s in live && live[s].ns == ns)
  {
    if s :| s in trees && trees[s].namespace == ns { assert s in live && live[s].ns == ns; }
    if s :| s in live && live[s].ns == ns { assert s in trees && trees[s].namespace == ns; }
  }

  lemma TiedRemove(trees: map<string, TreeId>, tokens: map<string, seq<Token>>, live: Branches, t: string)
    requires Tied(trees, tokens, live)
    ensures Tied(trees - {t}, tokens - {t}, live - {t})
  {
  }

  /** The slice of `tokens` at `k` is the whole of `run`. */
  predicate RunsAlong(run: seq<Token>, tokens: seq<Token>, k: nat)
    requires k <= |tokens|
  {
    k + |run| <= |tokens| && tokens[k..k + |run|] == run
  }

  /** Some branch of the namespace lives. */
  ghost predicate Peopled(live: Branches, ns: string) {
    exists s :: s in live && live[s].ns == ns
  }

  class TreeKVCache {
    const capacity: nat
    const budget: Option<nat>
    var nodes: map<NodeId, Node<Pins>>
    var roots: map<string, NodeId>
    var nextNode: NodeId
    var trees: map<string, TreeId>
    var treeTokens: map<string, seq<Token>>
    var childSeq: nat
    var stats: Stats
    ghost var place: map<NodeId, Pos>
    ghost var at: map<Pos, NodeId>
    ghost var freedTotal: int
    ghost var live: Branches

    ghost function Arena(): Forest<Pins>
      reads this`nodes, this`roots, this`place, this`at
    {
      Forest(nodes, roots, place, at)
    }

    ghost predicate Valid()
      reads this
    {
      && Tied(trees, treeTokens, live)
      && Sound(Arena(), live, nextNode, stats, freedTotal, capacity, budget)
    }

    /** The invariant, unfolded one level for callers. */
    lemma Parts()
      requires Valid()
      ensures Represents(Arena(), live) && Struct(Arena()) && Tracks(Arena(), live) && nextNode !in nodes
      ensures place.Keys == nodes.Keys
      ensures Balanced(live, stats, freedTotal, capacity, budget)
    {
      SoundParts(Arena(), live, nextNode, stats, freedTotal, capacity, budget);
    }

    constructor (capacity: nat, budget: Option<nat>)
      ensures Valid() && live == map[] && trees == map[] && stats == Stats(0, 0, 0, 0, 0)
      ensures this.capacity == capacity && this.budget == budget && freedTotal == 0
    {
      this.capacity := capacity;
      this.budget := budget;
      nodes, roots, nextNode := map[], map[], 0;
      trees, treeTokens, childSeq := map[], map[], 0;
      stats := Stats(0, 0, 0, 0, 0);
      place, at, freedTotal, live := map[], map[], 0, map[];
      new;
      EmptySound(capacity, budget);
    }

    /** Write back every field an operation computed. */
    method Store(nodes: map<NodeId, Node<Pins>>, roots: map<string, NodeId>, nextNode: NodeId, trees: map<string, TreeId>,
                 treeTokens: map<string, seq<Token>>, stats: Stats, ghost f: Forest<Pins>, ghost live: Branches, ghost freedTotal: int)
      requires f.nodes == nodes && f.roots == roots
      modifies this`nodes, this`roots, this`nextNode, this`trees, this`treeTokens, this`stats,
               this`place, this`at, this`live, this`freedTotal
      ensures Arena() == f && this.nodes == nodes && this.roots == roots && this.nextNode == nextNode
      ensures this.trees == trees && this.treeTokens == treeTokens && this.stats == stats
      ensures this.live == live && this.freedTotal == freedTotal
    {
      this.nodes, this.roots, this.nextNode, this.trees := nodes, roots, nextNode, trees;
      this.treeTokens, this.stats := treeTokens, stats;
      this.place, this.at, this.live, this.freedTotal := f.place, f.at, live, freedTotal;
    }

    /** `_split`: the old object keeps the tail, so nobody's position moves. */
    method Split(n: NodeId, k: nat)
      requires Valid() && n in nodes && n in place && place[n].path != [] && 0 < k < |nodes[n].tokens|
      modifies this`nodes, this`place, this`at, this`nextNode
      ensures Valid()
      ensures Arena() == RadixForest.Split(old(Arena()), n, k, old(nextNode))
    {
      hide RadixForest.Struct, PinnedForest.Represents, PinnedForest.Tracks, CacheState.Sound, CacheState.Balanced, Tied;
      Parts();
      ghost var f := Arena();
      EdgeAt(f, n);
      var head := nextNode;
      ghost var g := RadixForest.Split(f, n, k, head);
      nodes, nextNode := SplitNodes(nodes, n, k, head), nextNode + 1;
      place, at := g.place, g.at;
      SplitSound(f, live, head, stats, freedTotal, capacity, budget, n, k);
    }

    /** Split the child of `node` under `key`: `node` stays where it is and its child is now the head. */
    method SplitChild(node: NodeId, key: Token, k: nat)
      requires Valid() && node in nodes && node in place && key in nodes[node].children && ChildOk(Arena(), node, key)
      requires 0 < k < |nodes[nodes[node].children[key]].tokens|
      modifies this`nodes, this`place, this`at, this`nextNode
      ensures Valid() && node in nodes && node in place && place[node] == old(place[node])
      ensures key in nodes[node].children && nodes[node].children[key] in nodes && |nodes[nodes[node].children[key]].tokens| == k
    {
      hide RadixForest.Struct, PinnedForest.Represents, PinnedForest.Tracks, CacheState.Sound, CacheState.Balanced, Tied;
      Parts();
      ChildLink(Arena(), node, key);
      Split(nodes[node].children[key], k);
    }

    /** `_walk`: follow `query` from the namespace root, splitting where it leaves a run. */
    method Walk(query: seq<Token>, ns: string) returns (node: NodeId, matched: nat)
      requires Valid() && ns in roots
      modifies this`nodes, this`place, this`at, this`nextNode
      ensures Valid()
      ensures node in nodes && node in place && matched <= |query| && place[node] == Pos(ns, query[..matched])
      ensures matched < |query| ==> query[matched] !in nodes[node].children
      ensures matched == Longest(live, ns, query)
    {
      hide RadixForest.Struct, PinnedForest.Represents, PinnedForest.Tracks, CacheState.Sound, CacheState.Balanced, Tied, BranchTrie.Longest, RadixForest.Split;
      node, matched := roots[ns], 0;
      Parts();
      RootAt(Arena(), ns);
      while matched < |query|
        invariant Valid() && ns in roots
        invariant node in nodes && node in place && matched <= |query| && place[node] == Pos(ns, query[..matched])
        decreases |query| - matched,
                  if matched < |query| && node in nodes && query[matched] in nodes[node].children
                     && nodes[node].children[query[matched]] in nodes
                  then |nodes[nodes[node].children[query[matched]]].tokens| else 0
      {
        if query[matched] !in nodes[node].children {
          break;
        }
        var next := nodes[node].children[query[matched]];
        Parts();
        ChildLink(Arena(), node, query[matched]);
        var run := nodes[next].tokens;
        if !RunsAlong(run, query, matched) {
          var common := CommonPrefix(run, query, matched);
          if common == 0 {
            break;
          }
          SplitChild(node, query[matched], common);
          continue;
        }
        assert query[..matched] + run == query[..matched + |run|];
        matched := matched + |run|;
        node := next;
      }
      Parts();
      WalkIsLongest(Arena(), live, ns, query, node, matched);
    }

    /** `create_tree`.  Only live *tree* ids are checked: when the id is still the
        namespace of live branches its root is overwritten, which is harmless
        exactly when that namespace caches nothing. */
    method CreateTree(t: string) returns (r: Outcome<TreeId>)
      requires Valid()
      modifies this
      ensures t in old(trees) ==> r == ValueError && unchanged(this)
      ensures t !in old(trees) ==>
                && r == Ok(TreeId(t, None, 0, t))
                && trees == old(trees)[t := r.value] && treeTokens == old(treeTokens)[t := []]
                && live == old(live)[t := Pos(t, [])]
                && stats == old(stats) && freedTotal == old(freedTotal) && childSeq == old(childSeq)
                && t in roots && roots[t] in nodes && nodes[roots[t]].children == map[]
                && (Valid() <==> !Clobbers(old(live), t))
    {
      hide RadixForest.Struct, PinnedForest.Represents, PinnedForest.Tracks, CacheState.Sound, CacheState.Balanced, Tied;
      if t in trees {
        return ValueError;
      }
      Parts();
      ghost var f, was := Arena(), live;
      hide CacheState.Recreated, PinnedWalks.Clobbers;
      TiedAt(trees, treeTokens, live, t);
      CreateSound(f, was, nextNode, stats, freedTotal, capacity, budget, t);
      RecreatedParts(f, t, nextNode);
      ghost var g := Recreated(f, t, nextNode);
      var tid := TreeId(t, None, 0, t);
      var kept := if t in roots then nodes - {roots[t]} else nodes;  // an overwritten root is garbage
      TiedSet(trees, treeTokens, live, t, tid, []);
      Store(kept[nextNode := Node([], map[], nextNode, Pins(0, {}))], roots[t := nextNode], nextNode + 1,
            trees[t := tid], treeTokens[t := []], stats, g, live[t := Pos(t, [])], freedTotal);
      r := Ok(tid);
    }

    /** `fork_branch`: the child starts at its parent's position and nothing is copied. */
    method ForkBranch(parent: string, child: Option<string>) returns (r: Outcome<TreeId>)
      requires Valid()
      modifies this
      ensures Valid()
      ensures parent !in old(trees) ==> r == KeyError && unchanged(this)
      ensures parent in old(trees) ==> childSeq == old(childSeq) + 1
      ensures parent in old(trees) ==>
                var id := if child.Some? && child.value != "" then child.value else parent + "/" + Decimal(old(childSeq) + 1);
                if id in old(trees) then
                  r == ValueError && live == old(live) && trees == old(trees) && stats == old(stats)
                else
                  && r == Ok(TreeId(id, Some(parent), old(childSeq) + 1, old(trees)[parent].namespace))
                  && trees == old(trees)[id := r.value]
                  && treeTokens == old(treeTokens)[id := old(treeTokens)[parent]]
                  && live == old(live)[id := old(live)[parent]]
                  && stats == old(stats).(logical := old(stats.logical) + |old(treeTokens)[parent]|,
                                          saved := old(stats.saved) + |old(treeTokens)[parent]|)
      ensures freedTotal == old(freedTotal)
    {
      hide RadixForest.Struct, PinnedForest.Represents, PinnedForest.Tracks, CacheState.Sound, CacheState.Balanced, Tied;
      if parent !in trees {
        return KeyError;
      }
      childSeq := childSeq + 1;
      var id := if child.None? || child.value == "" then parent + "/" + Decimal(childSeq) else child.value;
      if id in trees {
        return ValueError;
      }
      hide PinnedForest.PinnedDown, PinnedForest.Counted;
      Parts();
      ghost var f, was := Arena(), live;
      var tid := TreeId(id, Some(parent), childSeq, trees[parent].namespace);
      TiedAt(trees, treeTokens, live, parent);
      TiedAt(trees, treeTokens, live, id);
      var pinned, matched := PinChild(parent, id);
      ForkSound(f, f.(nodes := pinned), was, nextNode, stats, freedTotal, capacity, budget, parent, id);
      TiedSet(trees, treeTokens, live, id, tid, treeTokens[parent]);
      Store(pinned, roots, nextNode, trees[id := tid], treeTokens[id := treeTokens[parent]],
            stats.(saved := stats.saved + matched, logical := stats.logical + |treeTokens[parent]|),
            f.(nodes := pinned), live[id := live[parent]], freedTotal);
      r := Ok(tid);
    }

    /** The refcount loop of `fork_branch`. */
    method PinChild(parent: string, child: string) returns (pinned: map<NodeId, Node<Pins>>, matched: nat)
      requires Valid() && parent in trees && parent in treeTokens && child !in trees && parent in live
      ensures PinnedDown(Arena(), Arena().(nodes := pinned), child, live[parent]) && Counted(Arena().(nodes := pinned))
      ensures matched == |treeTokens[parent]|
    {
      hide RadixForest.Struct, PinnedForest.Represents, PinnedForest.Tracks, CacheState.Sound, CacheState.Balanced, Tied;
      hide PinnedForest.PinnedDown, PinnedForest.Counted;
      Parts();
      ghost var f := Arena();
      TiedAt(trees, treeTokens, live, parent);
      TiedAt(trees, treeTokens, live, child);
      var ns, tokens := trees[parent].namespace, treeTokens[parent];
      NamespaceOf(f, live, parent);
      RootAt(f, ns);
      PinStart(f, child, ns);
      RepresentsCounted(f, live);
      var node := roots[ns];
      pinned, matched := nodes, 0;
      while matched < |tokens|
        invariant matched <= |tokens| && node in f.nodes && node in f.place && f.place[node] == Pos(ns, tokens[..matched])
        invariant PinnedDown(f, f.(nodes := pinned), child, f.place[node]) && Counted(f.(nodes := pinned))
      {
        ghost var g := f.(nodes := pinned);
        Follow(f, live, parent, node);
        PinShape(f, g, child, f.place[node], node);
        if tokens[matched] !in pinned[node].children {
          break;
        }
        var next := pinned[node].children[tokens[matched]];
        PinShape(f, g, child, f.place[node], next);
        if !RunsAlong(pinned[next].tokens, tokens, matched) {
          break;
        }
        EdgeAt(f, next);
        ForkPin(f, g, live, child, node, next);
        var d := pinned[next];
        var pins := Pins(d.data.ref + 1, d.data.owners + {child});
        PinStep(f, g, child, node, next, pins);
        pinned := pinned[next := d.(data := pins)];
        matched := matched + |d.tokens|;
        node := next;
      }
      assert tokens[..matched] == tokens;
    }

    /** `_add_refs` on the arena `f`: the branch holds every run on its new path, each counted once. */
    static method AddRefs(nodes: map<NodeId, Node<Pins>>, root: NodeId, tokens: seq<Token>, t: string,
                          ghost f: Forest<Pins>, ghost now: Branches)
      returns (pinned: map<NodeId, Node<Pins>>)
      requires nodes == f.nodes && Struct(f) && Tracks(f, now) && Counted(f)
      requires t in now && now[t].path == tokens && now[t].ns in f.roots && f.roots[now[t].ns] == root
      ensures PinnedDown(f, f.(nodes := pinned), t, now[t]) && Counted(f.(nodes := pinned))
    {
      hide RadixForest.Struct, PinnedForest.Tracks, PinnedForest.PinnedDown, PinnedForest.Counted;
      ghost var ns := now[t].ns;
      pinned := nodes;
      RootAt(f, ns);
      PinStart(f, t, ns);
      var node, matched := root, 0;
      while matched < |tokens|
        invariant matched <= |tokens| && node in f.nodes && node in f.place && f.place[node] == Pos(ns, tokens[..matched])
        invariant PinnedDown(f, f.(nodes := pinned), t, f.place[node]) && Counted(f.(nodes := pinned))
      {
        ghost var g := f.(nodes := pinned);
        Follow(f, now, t, node);
        PinShape(f, g, t, f.place[node], node);
        if tokens[matched] !in pinned[node].children {
          break;
        }
        var next := pinned[node].children[tokens[matched]];
        PinShape(f, g, t, f.place[node], next);
        if !RunsAlong(pinned[next].tokens, tokens, matched) {
          break;
        }
        EdgeAt(f, next);
        CountedAt(g, next);
        var d := pinned[next];
        if t in d.data.owners {
          PinStep(f, g, t, node, next, d.data);
          assert g == SetData(g, next, d.data);
        } else {
          var pins := Pins(d.data.ref + 1, d.data.owners + {t});
          PinStep(f, g, t, node, next, pins);
          pinned := pinned[next := d.(data := pins)];
        }
        matched := matched + |d.tokens|;
        node := next;
      }
      assert tokens[..matched] == tokens;
    }

    /** `_namespace_tokens`: the stack traversal counts each cached position once. */
    method NamespaceTokens(ns: string) returns (total: nat)
      requires Valid() && ns in roots
      ensures total == |CachedIn(live, ns)|
    {
      hide RadixForest.Struct, PinnedForest.Represents, PinnedForest.Tracks, CacheState.Sound, CacheState.Balanced, Tied;
      hide PinnedWalks.Frontier;
      Parts();
      ghost var f := Arena();
      RootAt(f, ns);
      var stack := nodes[roots[ns]].children.Values;
      FrontierStart(f, ns);
      total := 0;
      ghost var done: set<NodeId> := {};
      CountedNothing(f);
      while stack != {}
        invariant Frontier(f, ns, stack, done)
        invariant total == |CountedBy(f, done)|
        decreases nodes.Keys - done
      {
        var n :| n in stack;
        FrontierMember(f, ns, stack, done, n);
        FrontierStep(f, ns, stack, done, n);
        CountOne(f, done, n);
        total := total + |nodes[n].tokens|;
        stack := stack - {n} + nodes[n].children.Values;
        done := done + {n};
      }
      CountedAll(f, live, ns, done);
    }

    /** `_maybe_evict`: every node is pinned by a live branch, so there is never
        anything to evict and the call succeeds exactly when the tokens fit. */
    method MaybeEvict(need: nat) returns (fits: bool)
      requires Valid()
      ensures fits <==> stats.resident + need <= capacity
    {
      hide RadixForest.Struct, PinnedForest.Represents, PinnedForest.Tracks, CacheState.Sound, CacheState.Balanced, Tied;
      if stats.resident + need <= capacity {
        return true;
      }
      Parts();
      var leaves := set n | n in nodes && nodes[n].tokens != [] && nodes[n].children.Keys == {} && nodes[n].data.ref <= 0;
      NothingUnreferenced(Arena(), live);
      assert leaves == {};  // the eviction loop over `leaves` does nothing
      return false;
    }

    /** `extend`: charge exactly the tokens that no live branch of the namespace
        already caches on this path, or raise and change nothing visible. */
    method Extend(t: string, tokens: seq<Token>) returns (r: Outcome<nat>)
      requires Valid()
      modifies this
      ensures Valid() && trees == old(trees) && freedTotal == old(freedTotal) && childSeq == old(childSeq)
      ensures t !in old(trees) ==> r == KeyError
      ensures t in old(trees) ==>
                var full := old(treeTokens)[t] + tokens;
                var ns := old(trees)[t].namespace;
                var charge := |full| - Longest(old(live), ns, full);
                if (budget.Some? && |CachedIn(old(live), ns)| + charge > budget.value)
                   || old(stats.resident) + charge > capacity
                then r == MemoryError
                else
                  && r == Ok(charge)
                  && treeTokens == old(treeTokens)[t := full]
                  && live == old(live)[t := Pos(ns, full)]
                  && stats == Stats(old(stats.resident) + charge, old(stats.logical) + |tokens|,
                                    old(stats.charged) + charge,
                                    old(stats.saved) + (if charge < |tokens| then |tokens| - charge else 0),
                                    old(stats.evicted))
      ensures !r.Ok? ==> treeTokens == old(treeTokens) && live == old(live) && stats == old(stats)
    {
      hide RadixForest.Struct, PinnedForest.Represents, PinnedForest.Tracks, CacheState.Sound, CacheState.Balanced, Tied;
      hide BranchTrie.Longest, PinnedWalks.CachedIn;
      if t !in trees {
        return KeyError;
      }
      TiedAt(trees, treeTokens, live, t);
      var ns := trees[t].namespace;
      var full := treeTokens[t] + tokens;
      Parts();
      NamespaceOf(Arena(), live, t);
      var fits, node, matched := Admit(full, ns);
      if !fits {
        return MemoryError;
      }
      var charge := |full| - matched;
      var after := Stats(stats.resident + charge, stats.logical + |tokens|, stats.charged + charge,
                         stats.saved + (if charge < |tokens| then |tokens| - charge else 0), stats.evicted);
      var pinned, g := Committed(t, ns, full, node, matched, after);
      TiedMove(trees, treeTokens, live, t, full);
      Store(pinned, roots, nextNode + 1, trees, treeTokens[t := full], after, g, live[t := Pos(ns, full)], freedTotal);
      r := Ok(charge);
    }

    /** The first half of `extend`: look the sequence up and check budget, then capacity. */
    method Admit(full: seq<Token>, ns: string) returns (fits: bool, node: NodeId, matched: nat)
      requires Valid() && ns in roots
      modifies this`nodes, this`place, this`at, this`nextNode
      ensures Valid()
      ensures node in nodes && node in place && matched <= |full| && place[node] == Pos(ns, full[..matched])
      ensures matched < |full| ==> full[matched] !in nodes[node].children
      ensures matched == Longest(live, ns, full)
      ensures fits <==> && (budget.Some? ==> |CachedIn(live, ns)| + |full| - matched <= budget.value)
                        && stats.resident + |full| - matched <= capacity
    {
      hide RadixForest.Struct, PinnedForest.Represents, PinnedForest.Tracks, CacheState.Sound, CacheState.Balanced, Tied;
      hide BranchTrie.Longest, PinnedWalks.CachedIn;
      node, matched := Walk(full, ns);
      Bounded();
      if budget.Some? {
        var used := NamespaceTokens(ns);
        if used + |full| - matched > budget.value {
          return false, node, matched;
        }
      }
      fits := true;
      if matched < |full| {
        fits := MaybeEvict(|full| - matched);
      }
    }

    lemma Bounded()
      requires Valid()
      ensures 0 <= stats.resident <= stats.logical && stats.resident <= capacity
    {
      Parts();
      ResidentAtMostLogical(live, stats, freedTotal, capacity, budget);
    }

    /** The second half of `extend`: attach the uncached suffix and pin the path. */
    method Committed(t: string, ns: string, full: seq<Token>, node: NodeId, matched: nat, after: Stats)
      returns (pinned: map<NodeId, Node<Pins>>, ghost g: Forest<Pins>)
      requires Valid() && t in trees && t in treeTokens && t in live && live[t].ns == ns && ns in roots && treeTokens[t] <= full
      requires node in nodes && node in place && matched <= |full| && place[node] == Pos(ns, full[..matched])
      requires matched < |full| ==> full[matched] !in nodes[node].children
      requires budget.Some? ==> |CachedIn(live, ns)| + |full| - matched <= budget.value
      requires stats.resident + |full| - matched <= capacity
      requires after == Stats(stats.resident + |full| - matched, stats.logical + |full| - |treeTokens[t]|,
                              stats.charged + |full| - matched, after.saved, stats.evicted)
      ensures g.nodes == pinned && g.roots == roots
      ensures Sound(g, live[t := Pos(ns, full)], nextNode + 1, after, freedTotal, capacity, budget)
    {
      hide RadixForest.Struct, PinnedForest.Represents, PinnedForest.Tracks, CacheState.Sound, CacheState.Balanced, Tied;
      hide PinnedForest.PinnedDown, PinnedForest.Counted, RadixForest.GraftNodes, PinnedForest.Attached, PinnedForest.ReadyToAttach, PinnedWalks.CachedIn;
      Parts();
      TiedAt(trees, treeTokens, live, t);
      ghost var f, leaf := Arena(), nextNode;
      ghost var mid := Attached(f, node, t, full, matched, leaf);
      AttachedFacts(f, live, t, node, full, matched, leaf);
      var grafted := if matched < |full| then GraftNodes(nodes, node, full[matched..], nextNode, Pins(1, {t})) else nodes;
      pinned := AddRefs(grafted, roots[ns], full, t, mid, live[t := Pos(ns, full)]);
      g := mid.(nodes := pinned);
      ExtendSound(f, g, live, leaf, stats, freedTotal, capacity, budget, t, node, full, matched, after.saved);
    }

    /** `kill`: frees exactly the positions no other live branch holds. */
    method Kill(t: string) returns (freed: nat)
      requires Valid()
      modifies this
      ensures Valid()
      ensures t !in old(trees) ==> freed == 0 && unchanged(this)
      ensures t in old(trees) ==>
                && trees == old(trees) - {t} && treeTokens == old(treeTokens) - {t}
                && live == old(live) - {t}
                && freed == |Exclusive(old(live), t)|
                && stats == old(stats).(resident := old(stats.resident) - freed,
                                        logical := old(stats.logical) - |old(treeTokens)[t]|)
                && freedTotal == old(freedTotal) + freed && childSeq == old(childSeq)
    {
      hide RadixForest.Struct, PinnedForest.Represents, PinnedForest.Tracks, CacheState.Sound, CacheState.Balanced, Tied;
      hide PinnedForest.Released, BranchTrie.Holders;
      if t !in trees {
        return 0;
      }
      hide BranchTrie.Exclusive;
      Parts();
      TiedAt(trees, treeTokens, live, t);
      var kept, left;
      ghost var g;
      kept, left, freed, g := Without(t);
      TiedRemove(trees, treeTokens, live, t);
      Store(kept, left, nextNode, trees - {t}, treeTokens - {t},
            stats.(resident := stats.resident - freed, logical := stats.logical - |treeTokens[t]|),
            g, live - {t}, freedTotal + freed);
    }

    /** The arena `kill` leaves behind. */
    method Without(t: string)
      returns (kept: map<NodeId, Node<Pins>>, left: map<string, NodeId>, freed: nat, ghost h: Forest<Pins>)
      requires Valid() && t in trees && t in treeTokens && t in live
      ensures h.nodes == kept && h.roots == left && freed == |Exclusive(live, t)|
      ensures Sound(h, live - {t}, nextNode,
                    stats.(resident := stats.resident - freed, logical := stats.logical - |treeTokens[t]|),
                    freedTotal + freed, capacity, budget)
    {
      hide RadixForest.Struct, PinnedForest.Represents, PinnedForest.Tracks, CacheState.Sound, CacheState.Balanced, Tied;
      hide PinnedForest.Released, BranchTrie.Holders, BranchTrie.Exclusive, CacheState.Pruned, PinnedWalks.Chain, Peopled;
      Parts();
      TiedAt(trees, treeTokens, live, t);
      var path := PathOf(t);
      ghost var g;
      kept, freed, g := ReleasePath(nodes, t, path, Arena(), live);
      KillSound(Arena(), g, live, nextNode, stats, freedTotal, capacity, budget, t);
      var inhabited := Inhabited(t, trees[t].namespace);
      h := Pruned(g, live - {t}, trees[t].namespace);
      kept, left := Prune(kept, roots, trees[t].namespace, inhabited, g, live - {t});
    }

    /** Drop the namespace root with its last branch. */
    static method Prune(nodes: map<NodeId, Node<Pins>>, roots: map<string, NodeId>, ns: string, inhabited: bool,
                        ghost g: Forest<Pins>, ghost rest: Branches)
      returns (kept: map<NodeId, Node<Pins>>, left: map<string, NodeId>)
      requires g.nodes == nodes && g.roots == roots && ns in roots && inhabited == Peopled(rest, ns)
      ensures kept == Pruned(g, rest, ns).nodes && left == Pruned(g, rest, ns).roots
    {
      PrunedParts(g, rest, ns);
      kept, left := nodes, roots;
      if !inhabited {
        kept, left := nodes - {roots[ns]}, roots - {ns};
      }
    }

    /** Does any branch other than `t` belong to the namespace? */
    method Inhabited(t: string, ns: string) returns (yes: bool)
      requires Tied(trees, treeTokens, live)
      ensures yes == Peopled(live - {t}, ns)
    {
      hide Tied;
      var rest := trees - {t};
      yes := exists s :: s in rest && rest[s].namespace == ns;
      TiedRemove(trees, treeTokens, live, t);
      TiedNamespaces(rest, treeTokens - {t}, live - {t}, ns);
    }

    /** The first loop of `kill`: the nodes along the branch's sequence. */
    method PathOf(t: string) returns (path: seq<NodeId>)
      requires Valid() && t in trees && t in treeTokens && t in live
      ensures Chain(Arena(), live[t].ns, path, live[t].path)
    {
      hide RadixForest.Struct, PinnedForest.Represents, PinnedForest.Tracks, CacheState.Sound, CacheState.Balanced, Tied;
      hide PinnedWalks.Chain;
      Parts();
      ghost var f, was := Arena(), live;
      TiedAt(trees, treeTokens, live, t);
      var ns, tokens := trees[t].namespace, treeTokens[t];
      NamespaceOf(f, was, t);
      RootAt(f, ns);
      ChainStart(f, ns);
      var node, matched := roots[ns], 0;
      path := [];
      while matched < |tokens|
        invariant matched <= |tokens| && node in nodes && node in place && place[node] == Pos(ns, tokens[..matched])
        invariant Chain(f, ns, path, tokens[..matched])
      {
        Follow(f, was, t, node);
        if tokens[matched] !in nodes[node].children {
          break;
        }
        var next := nodes[node].children[tokens[matched]];
        if !RunsAlong(nodes[next].tokens, tokens, matched) {
          break;
        }
        ChainStep(f, ns, path, tokens[..matched], next);
        path := path + [next];
        matched := matched + |nodes[next].tokens|;
        node := next;
      }
      assert tokens[..matched] == tokens;
    }

    /** The second loop of `kill`: unpin the path from its end upwards. */
    static method ReleasePath(nodes: map<NodeId, Node<Pins>>, t: string, path: seq<NodeId>, ghost f: Forest<Pins>, ghost was: Branches)
      returns (kept: map<NodeId, Node<Pins>>, freed: nat, ghost g: Forest<Pins>)
      requires Represents(f, was) && t in was && f.nodes == nodes
      requires Chain(f, was[t].ns, path, was[t].path)
      ensures Released(f, g, was, t, 0) && g.nodes == kept
      ensures freed + |g.at| == |f.at|
    {
      hide PinnedForest.Represents, PinnedForest.Released, BranchTrie.Holders, PinnedWalks.Chain, PinnedWalks.ChainEnd;
      kept, freed, g := nodes, 0, f;
      ReleaseStart(f, was, t);
      ChainWhole(f, was[t].ns, path, was[t].path);
      var i := |path|;
      while 0 < i
        invariant 0 <= i <= |path| && ChainEnd(f, path, i) >= 0
        invariant Released(f, g, was, t, ChainEnd(f, path, i)) && g.nodes == kept
        invariant freed + |g.at| == |f.at|
      {
        i := i - 1;
        ChainAt(f, was[t].ns, path, was[t].path, i);
        var now: nat;
        kept, now, g := ReleaseNode(kept, path[i], t, f, g, was);
        freed := freed + now;
      }
    }

    /** One step of that loop: drop the reference, and the node with its last one. */
    static method ReleaseNode(nodes: map<NodeId, Node<Pins>>, n: NodeId, t: string,
                              ghost f: Forest<Pins>, ghost g: Forest<Pins>, ghost was: Branches)
      returns (kept: map<NodeId, Node<Pins>>, freed: nat, ghost h: Forest<Pins>)
      requires Represents(f, was) && t in was && n in f.nodes && n in f.place && g.nodes == nodes
      requires f.place[n].path != [] && Above(f.place[n], was[t])
      requires Released(f, g, was, t, |f.place[n].path|)
      ensures |f.nodes[n].tokens| <= |f.place[n].path|
      ensures Released(f, h, was, t, |f.place[n].path| - |f.nodes[n].tokens|) && h.nodes == kept
      ensures freed + |h.at| == |g.at|
    {
      hide RadixForest.Struct, PinnedForest.Represents, PinnedForest.Released, BranchTrie.Holders, RadixForest.DetachNodes;
      ReleaseHas(f, g, was, t, n);
      var d := nodes[n];
      var pins := Pins(d.data.ref - 1, d.data.owners - {t});
      ReleaseStep(f, g, was, t, n, pins);
      kept, freed, h := nodes[n := d.(data := pins)], 0, SetData(g, n, pins);
      if pins.ref <= 0 && d.children.Keys == {} {
        DetachForgets(nodes, n, pins);
        kept, freed, h := DetachNodes(kept, n), |d.tokens|, RemoveLeaf(g, n);
      }
    }

    /** `match_tree_prefix`: the splits of the lookup change nothing visible. */
    method MatchTreePrefix(t: string, tokens: seq<Token>) returns (r: Outcome<nat>)
      requires Valid()
      modifies this`nodes, this`place, this`at, this`nextNode
      ensures Valid()
      ensures r == if t in trees then Ok(Longest(live, trees[t].namespace, tokens)) else KeyError
    {
      hide RadixForest.Struct, PinnedForest.Represents, PinnedForest.Tracks, CacheState.Sound, CacheState.Balanced, Tied;
      if t !in trees {
        return KeyError;
      }
      Parts();
      TiedAt(trees, treeTokens, live, t);
      NamespaceOf(Arena(), live, t);
      var _, matched := Walk(tokens, trees[t].namespace);
      r := Ok(matched);
    }

    /** `match_prefix`: the best match over all namespaces. */
    method MatchPrefix(tokens: seq<Token>) returns (best: nat)
      requires Valid()
      modifies this`nodes, this`place, this`at, this`nextNode
      ensures Valid()
      ensures forall ns | ns in roots :: Longest(live, ns, tokens) <= best
      ensures best == 0 || exists ns :: ns in roots && Longest(live, ns, tokens) == best
    {
      hide RadixForest.Struct, PinnedForest.Represents, PinnedForest.Tracks, CacheState.Sound, CacheState.Balanced, Tied;
      best := 0;
      var todo := roots.Keys;
      while todo != {}
        invariant Valid() && todo <= roots.Keys
        invariant forall ns | ns in roots && ns !in todo :: Longest(live, ns, tokens) <= best
        invariant best == 0 || exists ns :: ns in roots && Longest(live, ns, tokens) == best
      {
        var ns :| ns in todo;
        var _, matched := Walk(tokens, ns);
        if matched > best {
          best := matched;
        }
        todo := todo - {ns};
      }
    }

    /** Killing every branch, in any order, frees exactly what was resident. */
    method KillAll(order: seq<string>) returns (freed: nat)
      requires Valid() && forall t | t in trees :: t in order
      modifies this
      ensures Valid() && trees == map[] && roots == map[] && stats.resident == 0 && stats.logical == 0
      ensures freed == old(stats.resident)
    {
      hide RadixForest.Struct, PinnedForest.Represents, PinnedForest.Tracks, CacheState.Sound, CacheState.Balanced, Tied;
      freed := 0;
      var i := 0;
      while i < |order|
        invariant Valid() && 0 <= i <= |order| && freed + stats.resident == old(stats.resident)
        invariant forall t | t in trees :: t in order[i..]
      {
        var now := Kill(order[i]);
        freed := freed + now;
        i := i + 1;
      }
      Parts();
      assert trees == map[];
      TiedEmpty(trees, treeTokens, live);
      NothingCached(stats, freedTotal, capacity, budget);
      NoNamespaces(Arena());
    }
  }

  /** The cache has room for what is missing of `p`, overall and within the namespace's budget. */
  ghost predicate Admits(cached: set<Pos>, p: Pos, capacity: nat, budget: Option<nat>) {
    var charge := |p.path| - LongestIn(cached, p.ns, p.path);
    && |cached| + charge <= capacity
    && (budget.Some? ==> |set q | q in cached && q.ns == p.ns| + charge <= budget.value)
  }

  lemma AdmitsIs(live: Branches, ns: string, path: seq<Token>, capacity: nat, budget: Option<nat>)
    ensures var charge := |path| - Longest(live, ns, path);
            Admits(Cached(live), Pos(ns, path), capacity, budget) <==>
              |Cached(live)| + charge <= capacity && (budget.Some? ==> |CachedIn(live, ns)| + charge <= budget.value)
  {
    assert CachedIn(live, ns) == set q | q in Cached(live) && q.ns == ns;
  }

  lemma ResidentIs(cache: TreeKVCache)
    requires cache.Valid()
    ensures cache.stats.resident == |Cached(cache.live)|
  {
    cache.Parts();
  }

  /** Children forked without a name get names of their own, as long as no caller has used
      a name of the form parent/number beyond the last number given out. */
  method ForkUnnamed(cache: TreeKVCache, parent: string, n: nat) returns (ids: seq<string>)
    requires cache.Valid() && parent in cache.trees
    requires forall k: nat | k > cache.childSeq :: parent + "/" + Decimal(k) !in cache.trees
    modifies cache
    ensures cache.Valid() && |ids| == n && (forall i, j | 0 <= i < j < n :: ids[i] != ids[j])
    ensures forall i | 0 <= i < n :: ids[i] !in old(cache.trees) && ids[i] in cache.trees && cache.trees[ids[i]].parentId == Some(parent)
    ensures forall i | 0 <= i < n :: ids[i] == parent + "/" + Decimal(old(cache.childSeq) + i + 1)
  {
    hide TreeKVCache.Valid;
    ids := [];
    while |ids| < n
      invariant cache.Valid() && |ids| <= n && parent in cache.trees && cache.childSeq == old(cache.childSeq) + |ids|
      invariant old(cache.trees).Keys <= cache.trees.Keys
      invariant forall i | 0 <= i < |ids| :: ids[i] == parent + "/" + Decimal(old(cache.childSeq) + i + 1)
      invariant forall i | 0 <= i < |ids| :: ids[i] in cache.trees && cache.trees[ids[i]].parentId == Some(parent)
      invariant forall k: nat | k > cache.childSeq :: parent + "/" + Decimal(k) !in cache.trees
    {
      ghost var next := cache.childSeq + 1;
      var forked := cache.ForkBranch(parent, None);
      forall k: nat | k > next ensures parent + "/" + Decimal(k) != forked.value.treeId {
        if parent + "/" + Decimal(k) == forked.value.treeId { NumberedNames(parent, parent, k, next); }
      }
      ids := ids + [forked.value.treeId];
    }
    forall i, j | 0 <= i < j < n ensures ids[i] != ids[j] {
      if ids[i] == ids[j] { NumberedNames(parent, parent, old(cache.childSeq) + i + 1, old(cache.childSeq) + j + 1); }
    }
  }

  lemma TiedEmpty(trees: map<string, TreeId>, tokens: map<string, seq<Token>>, live: Branches)
    requires Tied(trees, tokens, live) && trees == map[]
    ensures live == map[]
  {
  }

  lemma NothingCached(stats: Stats, freed: int, capacity: nat, budget: Option<nat>)
    requires Balanced(map[], stats, freed, capacity, budget)
    ensures stats.resident == 0 && stats.logical == 0
  {
    assert Cached(map[]) == {};
  }
}
