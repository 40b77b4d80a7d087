/** Concrete runs on which the code does not keep what one might expect of it. */
module FailingRuns {
  import opened Common
  import opened RadixForest
  import opened BranchTrie
  import opened CostModel
  import StockForest
  import PinnedWalks
  import CacheState
  import TreeCache
  import StockCache
  import PressureBench

  /** A root and its child, which has taken a token. */
  method RootAndChild() returns (cache: TreeCache.TreeKVCache)
    ensures fresh(cache) && cache.Valid() && cache.live == map["r" := Pos("r", []), "c" := Pos("r", [7])]
    ensures cache.trees.Keys == {"r", "c"} && cache.trees["c"].namespace == "r"
    ensures "c" in cache.treeTokens && cache.treeTokens["c"] == [7]
  {
    hide CacheState.Sound, BranchTrie.Longest, BranchTrie.Exclusive, TreeCache.TreeKVCache.Valid, TreeCache.Tied, PinnedWalks.Clobbers;
    cache := new TreeCache.TreeKVCache(10, None);
    Unclobbered("r");
    var r := cache.CreateTree("r");
    var c := cache.ForkBranch("r", Some("c"));
    var charged := cache.Extend("c", [7]);
    assert [] + [7] == [7];
  }

  /** The root is killed and created again: the child's token is no longer reachable. */
  method ReusedNamespace() returns (cache: TreeCache.TreeKVCache)
    ensures fresh(cache) && !cache.Valid()
    ensures "c" in cache.treeTokens && cache.treeTokens["c"] == [7] && "c" in cache.trees && cache.trees["c"].namespace == "r"
    ensures "r" in cache.roots && cache.roots["r"] in cache.nodes && cache.nodes[cache.roots["r"]].children == map[]
  {
    hide CacheState.Sound, BranchTrie.Longest, BranchTrie.Exclusive, TreeCache.TreeKVCache.Valid, TreeCache.Tied;
    cache := RootAndChild();
    var freed := cache.Kill("r");
    assert cache.live == map["c" := Pos("r", [7])];
    assert PinnedWalks.Clobbers(cache.live, "r") by { assert "c" in cache.live; }
    var again := cache.CreateTree("r");
  }

  lemma Unclobbered(ns: string)
    ensures !PinnedWalks.Clobbers(map[], ns)
  {
  }

  /** A request longer than the capacity that matches something evicts the node it extends:
      one token counts as resident that is not in the tree. */
  method OversizedRequest() returns (cache: StockCache.StockRadixCache)
    ensures fresh(cache) && cache.capacity == 2 && !cache.Valid()
    ensures StockForest.StockOk(cache.Arena(), cache.clock) && cache.resident == |cache.at| + 1
  {
    hide RadixForest.Struct, StockForest.Ordered, StockForest.Latest;
    cache := new StockCache.StockRadixCache(2);
    var first, _ := cache.RunRequest([1, 2]);
    TwoOfThree(cache.at.Keys, cache.Arena());
    var second, _ := cache.RunRequest([1, 2, 3]);
  }

  lemma TwoOfThree(keys: set<Pos>, f: Forest<int>)
    requires Struct(f) && f.at.Keys == keys && keys == Prefixes(Pos(StockForest.NS, [1, 2]))
    ensures LongestIn(keys, StockForest.NS, [1, 2, 3]) == 2
  {
    hide RadixForest.Struct;
    AtClosed(f);
    var q: seq<Token> := [1, 2, 3];
    assert q[..2] == [1, 2] && q[..3] == q;
    PrefixesAre(Pos(StockForest.NS, [1, 2]), Pos(StockForest.NS, q[..2]));
    PrefixesAre(Pos(StockForest.NS, [1, 2]), Pos(StockForest.NS, q));
    LongestInIs(keys, StockForest.NS, q, 2);
  }

  /** With an empty prefix and pressure above the capacity the closed form denies a hit that the replay counts. */
  method EmptyPrefix() returns (m: PressureBench.Measurement)
    ensures var ps := PressureScenario(0, 1, 1, 2, 1, Sustained);
            ps.Valid() && m.parentHits == 1 && StockParentHits(ps) == 0
  {
    m := PressureBench.RunStock(PressureScenario(0, 1, 1, 2, 1, Sustained));
  }
}
