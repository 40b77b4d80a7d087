/**
The pinned arm of `agentfork/bench/pressure_bench.py`: the same fan-out on the
tree-keyed cache, and the comparison of both arms with the model.
*/
module PinnedBench {
  import opened Common
  import opened RadixForest
  import opened BranchTrie
  import opened CostModel
  import opened TreeCache
  import opened CacheState
  import opened PinnedWalks
  import opened PressureBench

  const PARENT := "parent"

  function ChildName(i: nat): string {
    "child-" + Decimal(i)
  }

  function NoiseName(i: nat): string {
    "noise-" + Decimal(i)
  }

  lemma NamesApart(i: nat, j: nat)
    ensures ChildName(i) != PARENT && NoiseName(i) != PARENT && ChildName(i) != NoiseName(j)
    ensures ChildName(i) != ""
    ensures ChildName(i) == ChildName(j) ==> i == j
  {
    assert ChildName(i)[0] == 'c' && NoiseName(i)[0] == 'n' && NoiseName(j)[0] == 'n' && PARENT[0] == 'p';
    if ChildName(i) == ChildName(j) {
      assert ChildName(i)[6..] == Decimal(i) && ChildName(j)[6..] == Decimal(j);
      DecimalInjective(i, j);
    }
  }

  /** The live branches before child `i`: the parent and the children before it,
      all in the parent's namespace, on tokens handed out before `next`. */
  ghost predicate Fanned(live: Branches, next: nat, prefix: seq<Token>, i: nat) {
    && PARENT in live && live[PARENT] == Pos(PARENT, prefix)
    && (forall t | t in live :: live[t].ns == PARENT && (t == PARENT || exists j: nat :: j < i && t == ChildName(j)))
    && (forall t, k | t in live && 0 <= k < |live[t].path| :: live[t].path[k] < next)
  }

  lemma NameFree(live: Branches, next: nat, prefix: seq<Token>, i: nat)
    requires Fanned(live, next, prefix, i)
    ensures ChildName(i) !in live && NoiseName(i) !in live && !Clobbers(live, NoiseName(i)) && PARENT in live
  {
    NamesApart(i, i);
    if ChildName(i) in live {
      var j: nat :| j < i && ChildName(i) == ChildName(j);
      NamesApart(i, j);
      assert false;
    }
    if NoiseName(i) in live {
      var j: nat :| j < i && NoiseName(i) == ChildName(j);
      NamesApart(j, i);
      assert false;
    }
  }

  /** A namespace without tokens matches nothing. */
  lemma EmptySpace(live: Branches, ns: string, query: seq<Token>)
    requires !Clobbers(live, ns)
    ensures Longest(live, ns, query) == 0
  {
    if query != [] {
      var p := Pos(ns, query[..1]);
      CachedIs(live, p);
    }
    LongestIs(live, ns, query, 0);
  }

  /** The suffix of a child is new: exactly the parent prefix is shared. */
  lemma SuffixNew(live: Branches, next: nat, prefix: seq<Token>, i: nat, suffix: seq<Token>)
    requires Fanned(live, next, prefix, i) && suffix != [] && suffix[0] >= next
    ensures Longest(live, PARENT, prefix + suffix) == |prefix|
  {
    var all := prefix + suffix;
    assert all[..|prefix|] == prefix;
    if prefix != [] {
      assert Above(Pos(PARENT, prefix), live[PARENT]);
      CachedIs(live, Pos(PARENT, prefix));
    }
    var p := Pos(PARENT, all[..|prefix| + 1]);
    assert p.path[|prefix|] == suffix[0];
    forall t | t in live ensures !Above(p, live[t]) {
      if |live[t].path| > |prefix| { assert live[t].path[|prefix|] < next; }
    }
    CachedIs(live, p);
    LongestIs(live, PARENT, all, |prefix|);
  }

  lemma FannedMore(live: Branches, next: nat, prefix: seq<Token>, i: nat, suffix: seq<Token>)
    requires Fanned(live, next, prefix, i) && suffix == Range(next, |suffix|)
    ensures Fanned(live[ChildName(i) := Pos(PARENT, prefix + suffix)], next + |suffix|, prefix, i + 1)
  {
    NamesApart(i, i);
    var now := live[ChildName(i) := Pos(PARENT, prefix + suffix)];
    forall t | t in now ensures t == PARENT || exists j: nat :: j < i + 1 && t == ChildName(j) {
      if t != ChildName(i) && t != PARENT {
        var j: nat :| j < i && t == ChildName(j);
        assert j < i + 1;
      }
    }
    forall t, k | t in now && 0 <= k < |now[t].path| ensures now[t].path[k] < next + |suffix| {
      if t == ChildName(i) && k < |prefix| { assert now[t].path[k] == live[PARENT].path[k]; }
    }
  }

  /** One unrelated request: created, filled and killed, it leaves no trace. */
  method PinnedNoise(cache: TreeKVCache, ghost prefix: seq<Token>, ghost next: nat, i: nat, noise: seq<Token>)
    requires cache.Valid() && Fanned(cache.live, next, prefix, i)
    requires cache.budget == None && cache.stats.resident + |noise| <= cache.capacity
    modifies cache
    ensures cache.Valid() && cache.live == old(cache.live)
    ensures cache.stats.resident == old(cache.stats.resident) && cache.stats.charged == old(cache.stats.charged) + |noise|
  {
    hide CacheState.Sound, Fanned, PinnedWalks.Clobbers, BranchTrie.Longest, BranchTrie.Exclusive, Tied;
    var name := NoiseName(i);
    ghost var was := cache.live;
    NameFree(was, next, prefix, i);
    TiedAt(cache.trees, cache.treeTokens, was, name);
    ResidentIs(cache);
    var created := cache.CreateTree(name);
    EmptySpaceAfter(was, name, noise);
    TiedAt(cache.trees, cache.treeTokens, cache.live, name);
    assert [] + noise == noise;
    var extended := cache.Extend(name, noise);
    assert extended == Ok(|noise|);
    var freed := cache.Kill(name);
    assert cache.live == was;
    ResidentIs(cache);
  }

  lemma EmptySpaceAfter(live: Branches, name: string, query: seq<Token>)
    requires !Clobbers(live, name)
    ensures Longest(live[name := Pos(name, [])], name, query) == 0
  {
    EmptySpace(live[name := Pos(name, [])], name, query);
  }

  /** One child: forked, found to hold the whole prefix, charged only its suffix. */
  method PinnedChild(cache: TreeKVCache, prefix: seq<Token>, ghost next: nat, i: nat, suffix: seq<Token>) returns (matched: nat)
    requires cache.Valid() && Fanned(cache.live, next, prefix, i) && suffix == Range(next, |suffix|)
    requires cache.budget == None && cache.stats.resident + |suffix| <= cache.capacity
    modifies cache
    ensures cache.Valid() && Fanned(cache.live, next + |suffix|, prefix, i + 1)
    ensures matched == |prefix|
    ensures cache.stats.resident == old(cache.stats.resident) + |suffix| && cache.stats.charged == old(cache.stats.charged) + |suffix|
  {
    hide CacheState.Sound, Fanned, BranchTrie.Longest, Tied;
    var name := ChildName(i);
    ghost var was := cache.live;
    NameFree(was, next, prefix, i);
    NamesApart(i, i);
    ParentAt(was, next, prefix, i);
    TiedAt(cache.trees, cache.treeTokens, was, name);
    TiedAt(cache.trees, cache.treeTokens, was, PARENT);
    var forked := cache.ForkBranch(PARENT, Some(name));
    TiedAt(cache.trees, cache.treeTokens, cache.live, name);
    FannedFork(was, next, prefix, i, suffix);
    var found := cache.MatchTreePrefix(name, prefix);
    matched := found.value;
    if suffix != [] {
      var extended := cache.Extend(name, suffix);
      assert extended == Ok(|suffix|);
    }
  }

  lemma ParentAt(live: Branches, next: nat, prefix: seq<Token>, i: nat)
    requires Fanned(live, next, prefix, i)
    ensures PARENT in live && live[PARENT] == Pos(PARENT, prefix)
  {
  }

  lemma FannedFork(live: Branches, next: nat, prefix: seq<Token>, i: nat, suffix: seq<Token>)
    requires Fanned(live, next, prefix, i) && suffix == Range(next, |suffix|)
    ensures var now := live[ChildName(i) := Pos(PARENT, prefix)];
            && Longest(now, PARENT, prefix) == |prefix|
            && (suffix != [] ==> Longest(now, PARENT, prefix + suffix) == |prefix|)
            && now[ChildName(i) := Pos(PARENT, prefix + suffix)] == live[ChildName(i) := Pos(PARENT, prefix + suffix)]
    ensures Fanned(live[ChildName(i) := Pos(PARENT, prefix + suffix)], next + |suffix|, prefix, i + 1)
    ensures suffix == [] ==> prefix + suffix == prefix
  {
    var now := live[ChildName(i) := Pos(PARENT, prefix)];
    FannedMore(live, next, prefix, i, []);
    assert prefix + [] == prefix;
    LongestAlong(now, ChildName(i), prefix);
    if suffix != [] { SuffixNew(now, next, prefix, i + 1, suffix); }
    FannedMore(live, next, prefix, i, suffix);
  }

  /** `run_pinned`: never raises, every child hits, and only suffixes are charged. */
  method RunPinned(ps: PressureScenario) returns (m: Measurement)
    requires ps.Valid()
    ensures m.nChildren == ps.nChildren
    ensures m.parentHits == PressureModel(ps).pinnedHits
    ensures m.childPrefillCharged == PressureModel(ps).pinnedPrefill
    ensures m.prefillCharged == m.childPrefillCharged + NoiseTotal(ps, ps.nChildren)
  {
    hide TokenGen.Valid, Fanned, SuffixesFree, NoiseTotal, CacheState.Sound, Tied, PressureModel, TreeKVCache.Valid;
    var gen := new TokenGen();
    var need := ps.prefixTokens + ps.nChildren * ps.suffixTokens + ps.interleavedTokens + 1;
    RoomFor(ps, 0);
    var cache := new TreeKVCache(if ps.capacityTokens >= need then ps.capacityTokens else need, None);
    var prefix := PinnedParent(gen, cache, ps);
    var childCharged := cache.stats.charged;
    var hits := 0;
    var i := 0;
    CountStart(ps);
    while i < ps.nChildren
      invariant fresh(gen) && fresh(cache) && gen.Valid() && cache.capacity >= need && cache.budget == None
      invariant 0 <= i <= ps.nChildren && cache.Valid() && |prefix| == ps.prefixTokens && Fanned(cache.live, gen.next, prefix, i)
      invariant SuffixesFree(gen.ranges, i)
      invariant hits == i && childCharged == ps.prefixTokens + i * ps.suffixTokens
      invariant cache.stats.resident == childCharged && cache.stats.charged == childCharged + NoiseTotal(ps, i)
    {
      HitsStep(ps, i);
      RoomFor(ps, i);
      SuffixFree(gen.ranges, i);
      if ps.Gap(i) {
        ghost var next := gen.next;
        var noise := gen.Fresh(ps.interleavedTokens);
        PinnedNoise(cache, prefix, next, i, noise);
        FannedLater(cache.live, next, gen.next, prefix, i);
      }
      var before := cache.stats.charged;
      ghost var next := gen.next;
      var suffix := gen.Block(SuffixName(i), ps.suffixTokens);
      var matched := PinnedChild(cache, prefix, next, i, suffix);
      if matched >= ps.prefixTokens {
        hits := hits + 1;
      }
      childCharged := childCharged + cache.stats.charged - before;
      i := i + 1;
    }
    ModelPinned(ps);
    m := Measurement(hits, ps.nChildren, cache.stats.charged, childCharged);
  }

  lemma ModelPinned(ps: PressureScenario)
    ensures PressureModel(ps).pinnedHits == ps.nChildren
    ensures PressureModel(ps).pinnedPrefill == ps.prefixTokens + ps.nChildren * ps.suffixTokens
  {
  }

  lemma RoomFor(ps: PressureScenario, i: nat)
    requires ps.Valid()
    ensures ps.nChildren * ps.suffixTokens >= 0
    ensures (i + 1) * ps.suffixTokens == i * ps.suffixTokens + ps.suffixTokens
    ensures i < ps.nChildren ==> i * ps.suffixTokens + ps.suffixTokens <= ps.nChildren * ps.suffixTokens
  {
    if i < ps.nChildren {
      assert (ps.nChildren - i - 1) * ps.suffixTokens >= 0;
    }
  }

  lemma FannedLater(live: Branches, next: nat, later: nat, prefix: seq<Token>, i: nat)
    requires Fanned(live, next, prefix, i) && next <= later
    ensures Fanned(live, later, prefix, i)
  {
  }

  method PinnedParent(gen: TokenGen, cache: TreeKVCache, ps: PressureScenario) returns (prefix: seq<Token>)
    requires ps.Valid() && cache.Valid() && cache.live == map[] && cache.trees == map[] && cache.stats == Stats(0, 0, 0, 0, 0)
    requires gen.Valid() && gen.next == 0 && gen.ranges == map[] && cache.budget == None && cache.capacity >= ps.prefixTokens
    modifies gen, cache
    ensures gen.Valid() && cache.Valid() && |prefix| == ps.prefixTokens && Fanned(cache.live, gen.next, prefix, 0)
    ensures SuffixesFree(gen.ranges, 0)
    ensures cache.stats.resident == ps.prefixTokens && cache.stats.charged == ps.prefixTokens
  {
    hide CacheState.Sound, BranchTrie.Longest, Tied, PinnedWalks.Clobbers;
    prefix := gen.Block("parent", ps.prefixTokens);
    NothingClobbered(PARENT);
    var created := cache.CreateTree(PARENT);
    EmptySpaceAfter(map[], PARENT, prefix);
    TiedAt(cache.trees, cache.treeTokens, cache.live, PARENT);
    assert [] + prefix == prefix;
    if prefix != [] {
      var extended := cache.Extend(PARENT, prefix);
      assert extended == Ok(|prefix|);
    }
    assert cache.live == map[PARENT := Pos(PARENT, prefix)];
    forall j: nat ensures SuffixName(j) != "parent" { assert SuffixName(j)[0] == 's'; }
  }

  lemma NothingClobbered(name: string)
    ensures !Clobbers(map[], name)
  {
  }

  /** `compare`: both measured arms are the model's integers; the hit count of the
      stock arm needs a non-empty prefix or pressure within capacity. */
  method Compare(ps: PressureScenario) returns (stock: Measurement, pinned: Measurement)
    requires ps.Valid()
    ensures var model := PressureModel(ps);
            && stock.childPrefillCharged == model.stockPrefill
            && pinned.childPrefillCharged == model.pinnedPrefill
            && pinned.parentHits == model.pinnedHits
            && (stock.parentHits == model.stockHits <==> (ps.prefixTokens > 0 || ps.interleavedTokens <= ps.capacityTokens))
            && stock.childPrefillCharged - pinned.childPrefillCharged == model.misses * ps.prefixTokens
  {
    stock := RunStock(ps);
    pinned := RunPinned(ps);
  }

  /** The break-even point is exact: with a parent prefix to lose, every child
      finds it up to `C - P` interleaved tokens and somebody misses from there on. */
  lemma BreakEvenExact(ps: PressureScenario)
    requires ps.Valid()
    ensures PressureModel(ps).misses == 0 <==> ps.interleavedTokens <= BreakEvenU(ps.prefixTokens, ps.capacityTokens)
    ensures ps.prefixTokens > 0 ==>
              (PressureModel(ps).stockPrefill > PressureModel(ps).pinnedPrefill
               <==> ps.interleavedTokens > ps.capacityTokens - ps.prefixTokens)
  {
    var m := PressureModel(ps);
    if m.misses > 0 && ps.prefixTokens > 0 {
      assert m.misses * ps.prefixTokens > 0;
    }
  }
}
