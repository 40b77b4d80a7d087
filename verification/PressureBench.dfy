/**
The workload replay of `agentfork/bench/pressure_bench.py` on the two caches, and
the proof that the closed-form pressure model predicts its counters exactly.
*/
module PressureBench {
  import opened Common
  import opened RadixForest
  import opened BranchTrie
  import opened StockForest
  import opened StockCache
  import opened CostModel
  import opened TreeCache
  import opened CacheState
  import opened PinnedWalks

  /** `list(range(start, start + size))`. */
  function Range(start: nat, size: nat): (r: seq<Token>)
    ensures |r| == size && forall k | 0 <= k < size :: r[k] == start + k
  {
    seq(size, k requires 0 <= k < size => start + k)
  }

  /** `_TokenGen`: named blocks are remembered, everything else is new. */
  class TokenGen {
    var next: nat
    var ranges: map<string, nat>
    ghost var given: set<Token>

    /** Every token handed out so far lies below the cursor. */
    ghost predicate Valid()
      reads this
    {
      forall x | x in given :: x < next
    }

    constructor ()
      ensures Valid() && next == 0 && ranges == map[] && given == {}
    {
      next, ranges, given := 0, map[], {};
    }

    /** A new name gets tokens nobody has; a known name gets its block again, and only a longer
        block than before could reach into tokens of others. */
    method Block(name: string, size: nat) returns (r: seq<Token>)
      requires Valid()
      modifies this
      ensures |r| == size && given == old(given) + set x | x in r
      ensures name !in old(ranges) ==> (forall x | x in r :: x !in old(given)) && r == Range(old(next), size)
      ensures name in old(ranges) ==> r == Range(old(ranges)[name], size) && next == old(next) && ranges == old(ranges)
      ensures name !in old(ranges) ==> next == old(next) + size && ranges == old(ranges)[name := old(next)]
      ensures Valid() <==> name !in old(ranges) || size == 0 || old(ranges)[name] + size <= old(next)
    {
      if name !in ranges {
        ranges := ranges[name := next];
        next := next + size;
      }
      r := Range(ranges[name], size);
      given := given + set x | x in r;
      assert size > 0 ==> r[size - 1] in given;
    }

    /** Tokens nobody has. */
    method Fresh(size: nat) returns (r: seq<Token>)
      requires Valid()
      modifies this
      ensures Valid() && |r| == size && given == old(given) + set x | x in r
      ensures forall x | x in r :: x !in old(given)
      ensures r == Range(old(next), size) && next == old(next) + size && ranges == old(ranges)
    {
      r := Range(next, size);
      next := next + size;
      given := given + set x | x in r;
    }
  }

  /******* The state of the stock replay *******/

  /** No token from `next` on occurs anywhere in the cache. */
  ghost predicate Known(f: Stamped, next: nat) {
    forall p, k {:trigger p.path[k]} | p in f.at && 0 <= k < |p.path| :: p.path[k] < next
  }

  /** The parent prefix lies within one run. */
  ghost predicate OneRun(f: Stamped, prefix: seq<Token>) {
    && prefix != []
    && Pos(NS, prefix[..1]) in f.at && Pos(NS, prefix) in f.at
    && f.at[Pos(NS, prefix[..1])] == f.at[Pos(NS, prefix)]
  }

  /** What the cache looks like before child `i`: the last request was the parent
      prefix or a child of it, so the prefix is cached and most recently used. */
  ghost predicate Ready(f: Stamped, now: int, next: nat, ps: PressureScenario, i: nat, prefix: seq<Token>, last: seq<Token>) {
    var P, U, C := ps.prefixTokens, ps.interleavedTokens, ps.capacityTokens;
    && StockOk(f, now) && Known(f, next)
    && |prefix| == P && (forall k | 0 <= k < P :: prefix[k] < next)
    && prefix <= last && Latest(f, now, Pos(NS, last))
    && (P > 0 ==> Pos(NS, prefix) in f.at)
    && (P > 0 && P + U <= C ==> Boundary(f, Pos(NS, prefix)))
    && (P > 0 && P + U > C && ps.Gap(i) ==> OneRun(f, prefix))
  }

  /** The prefix is cached in full, or not at all. */
  ghost predicate Present(f: Stamped, prefix: seq<Token>) {
    prefix != [] ==> Pos(NS, prefix) in f.at
  }

  ghost predicate Absent(f: Stamped, prefix: seq<Token>) {
    prefix != [] && Pos(NS, prefix[..1]) !in f.at
  }

  /** Which of the two holds when child `i` runs. */
  predicate Survives(ps: PressureScenario, i: int) {
    ps.prefixTokens == 0 || !ps.Gap(i) || ps.prefixTokens + ps.interleavedTokens <= ps.capacityTokens
  }

  /** The cache when child `i` is about to be served. */
  ghost predicate Faced(f: Stamped, now: int, next: nat, ps: PressureScenario, i: nat, prefix: seq<Token>) {
    && StockOk(f, now) && Known(f, next)
    && |prefix| == ps.prefixTokens && (forall k | 0 <= k < |prefix| :: prefix[k] < next)
    && (if Survives(ps, i) then Present(f, prefix) else Absent(f, prefix))
  }

  /******* Matching *******/

  lemma PresentMatch(f: Stamped, prefix: seq<Token>)
    requires Struct(f) && Present(f, prefix)
    ensures LongestIn(f.at.Keys, NS, prefix) == |prefix|
  {
    AtClosed(f);
    assert prefix[..|prefix|] == prefix;
    LongestInIs(f.at.Keys, NS, prefix, |prefix|);
  }

  lemma AbsentMatch(f: Stamped, prefix: seq<Token>, rest: seq<Token>)
    requires Struct(f) && Absent(f, prefix)
    ensures LongestIn(f.at.Keys, NS, prefix + rest) == 0
  {
    AtClosed(f);
    assert (prefix + rest)[..1] == prefix[..1];
    LongestInIs(f.at.Keys, NS, prefix + rest, 0);
  }

  /** New tokens are matched by nothing. */
  lemma NewMatch(f: Stamped, next: nat, prefix: seq<Token>, rest: seq<Token>)
    requires Struct(f) && Known(f, next) && Present(f, prefix)
    requires rest != [] ==> rest[0] >= next
    ensures LongestIn(f.at.Keys, NS, prefix + rest) == |prefix|
  {
    AtClosed(f);
    var all := prefix + rest;
    assert all[..|prefix|] == prefix;
    if rest != [] {
      var p := Pos(NS, all[..|prefix| + 1]);
      assert p.path[|prefix|] == rest[0];
      assert p !in f.at;
    }
    LongestInIs(f.at.Keys, NS, all, |prefix|);
  }

  /** Serving a request only adds its own tokens. */
  lemma KnownAfter(f: Stamped, g: Stamped, next: nat, more: nat, tokens: seq<Token>)
    requires Known(f, next) && Added(f, g, Pos(NS, tokens)) && next <= more
    requires forall k | 0 <= k < |tokens| :: tokens[k] < more
    ensures Known(g, more)
  {
    forall p, k | p in g.at && 0 <= k < |p.path| ensures p.path[k] < more {
      PrefixesAre(Pos(NS, tokens), p);
      if p !in f.at {
        assert p.path[k] == tokens[k];
      }
    }
  }

  /******* The parent *******/

  lemma ColdStart(f: Stamped, g: Stamped, ps: PressureScenario, prefix: seq<Token>, now: int)
    requires ps.Valid() && |prefix| == ps.prefixTokens && f.at == map[]
    requires forall k | 0 <= k < |prefix| :: prefix[k] < |prefix|
    requires Served(f, g, now, prefix, 0, ps.capacityTokens)
    ensures Ready(g, now, |prefix|, ps, 0, prefix, prefix)
  {
    KnownAfter(f, g, 0, |prefix|, prefix);
    if prefix != [] {
      PrefixesAre(Pos(NS, prefix), Pos(NS, prefix));
    }
  }

  lemma ColdMatch(f: Stamped, prefix: seq<Token>)
    requires f.at == map[]
    ensures LongestIn(f.at.Keys, NS, prefix) == 0
  {
    assert f.at.Keys == {};
    LongestInIs(f.at.Keys, NS, prefix, 0);
  }

  /******* The gap *******/

  /** U tokens of unrelated traffic match nothing. */
  lemma NoiseMatch(f: Stamped, next: nat, noise: seq<Token>)
    requires Struct(f) && Known(f, next) && noise != [] && noise[0] >= next
    ensures LongestIn(f.at.Keys, NS, noise) == 0
  {
    NewMatch(f, next, [], noise);
    assert [] + noise == noise;
  }

  /** Below break-even the parent survives the gap ... */
  lemma GapKeeps(f: Stamped, g: Stamped, now: int, next: nat, ps: PressureScenario, i: nat, prefix: seq<Token>, last: seq<Token>, noise: seq<Token>)
    requires ps.Valid() && Ready(f, now, next, ps, i, prefix, last) && ps.Gap(i) && noise == Range(next, ps.interleavedTokens)
    requires Served(f, g, now + 1, noise, 0, ps.capacityTokens) && KeepsEnds(f, g, |noise|, ps.capacityTokens)
    requires Survives(ps, i)
    ensures Faced(g, now + 1, next + |noise|, ps, i, prefix)
  {
    KnownAfter(f, g, next, next + |noise|, noise);
    if prefix != [] {
      LatestProtected(f, now, Pos(NS, last), Pos(NS, prefix));
      assert Boundary(g, Pos(NS, prefix));
    }
  }

  /** Two requests without a common first token share no position. */
  lemma Apart(a: seq<Token>, b: seq<Token>)
    requires a != [] && b != [] && a[0] != b[0]
    ensures Prefixes(Pos(NS, a)) !! Prefixes(Pos(NS, b))
    ensures |Prefixes(Pos(NS, a)) + Prefixes(Pos(NS, b))| == |a| + |b|
  {
    var A, B := Prefixes(Pos(NS, a)), Prefixes(Pos(NS, b));
    forall p | p in A ensures p !in B {
      PrefixesAre(Pos(NS, a), p);
      PrefixesAre(Pos(NS, b), p);
    }
    SegmentSize(NS, a, 0, |a|);
    SegmentSize(NS, b, 0, |b|);
    assert A !! B;
  }

  /** ... above it the whole parent run is evicted. */
  lemma GapEvicts(f: Stamped, g: Stamped, now: int, next: nat, ps: PressureScenario, i: nat, prefix: seq<Token>, last: seq<Token>, noise: seq<Token>)
    requires ps.Valid() && Ready(f, now, next, ps, i, prefix, last) && ps.Gap(i) && noise == Range(next, ps.interleavedTokens)
    requires Served(f, g, now + 1, noise, 0, ps.capacityTokens)
    requires !Survives(ps, i)
    ensures Faced(g, now + 1, next + |noise|, ps, i, prefix)
  {
    KnownAfter(f, g, next, next + |noise|, noise);
    if Pos(NS, prefix[..1]) in g.at {
      assert f.at[Pos(NS, prefix[..1])] == f.at[Pos(NS, prefix)];
      assert Pos(NS, prefix) in g.at;
      forall p | p in Prefixes(Pos(NS, prefix)) ensures p in g.at {
        PrefixesAre(Pos(NS, prefix), p);
        assert p.path == prefix[..|p.path|];
        PrefixClosed(g, Pos(NS, prefix), |p.path|);
      }
      Apart(prefix, noise);
      SegmentSize(NS, noise, 0, |noise|);
      SubsetSize(Prefixes(Pos(NS, prefix)) + Prefixes(Pos(NS, noise)), g.at.Keys);
      assert false;
    }
  }

  lemma NoGap(f: Stamped, now: int, next: nat, ps: PressureScenario, i: nat, prefix: seq<Token>, last: seq<Token>)
    requires Ready(f, now, next, ps, i, prefix, last) && !ps.Gap(i)
    ensures Faced(f, now, next, ps, i, prefix)
  {
  }

  /******* The child *******/

  /** How much of child `i`'s request is cached. */
  lemma ChildMatch(f: Stamped, now: int, next: nat, ps: PressureScenario, i: nat, prefix: seq<Token>, suffix: seq<Token>)
    requires Faced(f, now, next, ps, i, prefix) && suffix == Range(next, |suffix|)
    ensures LongestIn(f.at.Keys, NS, prefix + suffix) == (if Survives(ps, i) then |prefix| else 0)
    ensures LongestIn(f.at.Keys, NS, prefix) == (if Survives(ps, i) then |prefix| else 0)
  {
    if Survives(ps, i) {
      NewMatch(f, next, prefix, suffix);
      PresentMatch(f, prefix);
    } else {
      AbsentMatch(f, prefix, suffix);
      AbsentMatch(f, prefix, []);
      assert prefix + [] == prefix;
    }
  }

  /** A run that holds the first and the last position of a request holds its prefix. */
  lemma WithinRun(g: Stamped, all: seq<Token>, k: nat)
    requires Struct(g) && 0 < k <= |all| && Pos(NS, all[..1]) in g.at && Pos(NS, all) in g.at
    requires g.at[Pos(NS, all[..1])] == g.at[Pos(NS, all)]
    ensures OneRun(g, all[..k])
  {
    var n := g.at[Pos(NS, all)];
    assert Covers(g, g.at[Pos(NS, all[..1])], Pos(NS, all[..1])) && Covers(g, n, Pos(NS, all));
    assert all[..k] == g.place[n].path[..k];
    assert Covers(g, n, Pos(NS, all[..k]));
    assert all[..k][..1] == all[..1];
  }

  /** Serving the child makes the cache ready for the next one. */
  lemma ChildReadies(f: Stamped, g: Stamped, now: int, next: nat, ps: PressureScenario, i: nat, prefix: seq<Token>, suffix: seq<Token>)
    requires ps.Valid() && Faced(f, now, next, ps, i, prefix) && |suffix| == ps.suffixTokens && suffix == Range(next, |suffix|)
    requires Served(f, g, now + 1, prefix + suffix, if Survives(ps, i) then |prefix| else 0, ps.capacityTokens)
    ensures Ready(g, now + 1, next + |suffix|, ps, i + 1, prefix, prefix + suffix)
  {
    var all := prefix + suffix;
    KnownAfter(f, g, next, next + |suffix|, all);
    if prefix != [] {
      assert all[..|prefix|] == prefix;
      PrefixesAre(Pos(NS, all), Pos(NS, prefix));
      if !Survives(ps, i) && ps.Gap(i + 1) {
        WithinRun(g, all, |prefix|);
      }
    }
  }

  /******* The stock arm *******/

  datatype Measurement = Measurement(parentHits: int, nChildren: int, prefillCharged: int, childPrefillCharged: int)

  /** Unrelated tokens injected over the whole run. */
  function NoiseTotal(ps: PressureScenario, i: nat): int {
    if ps.interleavedTokens == 0 || i == 0 then 0
    else if ps.pattern == Sustained then i * ps.interleavedTokens
    else ps.interleavedTokens
  }

  /** Hits among the first `i` children. */
  function HitsUpTo(ps: PressureScenario, i: nat): int {
    if ps.prefixTokens == 0 || ps.prefixTokens + ps.interleavedTokens <= ps.capacityTokens then i
    else if ps.pattern == Burst && i > 0 then i - 1
    else 0
  }

  lemma HitsStep(ps: PressureScenario, i: nat)
    requires ps.Valid()
    ensures HitsUpTo(ps, i + 1) == HitsUpTo(ps, i) + (if Survives(ps, i) then 1 else 0)
    ensures NoiseTotal(ps, i + 1) == NoiseTotal(ps, i) + (if ps.Gap(i) then ps.interleavedTokens else 0)
  {
    if ps.pattern == Sustained {
      assert (i + 1) * ps.interleavedTokens == i * ps.interleavedTokens + ps.interleavedTokens;
    }
  }

  /** Prefill charged to parent and children once `i` children, `hits` of them hits, have run. */
  function Charge(ps: PressureScenario, i: int, hits: int): int {
    ps.prefixTokens + i * ps.suffixTokens + (i - hits) * ps.prefixTokens
  }

  lemma ChargeStep(ps: PressureScenario, i: int, hits: int)
    ensures Charge(ps, 0, 0) == ps.prefixTokens
    ensures Charge(ps, i + 1, hits + 1) == Charge(ps, i, hits) + ps.suffixTokens
    ensures Charge(ps, i + 1, hits) == Charge(ps, i, hits) + ps.suffixTokens + ps.prefixTokens
  {
    assert (i + 1) * ps.suffixTokens == i * ps.suffixTokens + ps.suffixTokens;
    assert (i + 1 - hits) * ps.prefixTokens == (i - hits) * ps.prefixTokens + ps.prefixTokens;
  }

  /** The model's hit count is what the replay counts, except that an empty
      parent prefix is always found while the model lets it be evicted. */
  lemma HitsAreModel(ps: PressureScenario)
    requires ps.Valid()
    ensures HitsUpTo(ps, ps.nChildren) == StockParentHits(ps) <==> (ps.prefixTokens > 0 || ps.interleavedTokens <= ps.capacityTokens)
    ensures ps.prefixTokens == 0 ==> HitsUpTo(ps, ps.nChildren) == ps.nChildren
    ensures Charge(ps, ps.nChildren, HitsUpTo(ps, ps.nChildren)) == PressureModel(ps).stockPrefill
  {
    if ps.prefixTokens > 0 {
      assert HitsUpTo(ps, ps.nChildren) == StockParentHits(ps);
    }
  }

  /** `run_stock`: replay the fan-out on the stock cache.  The measured hits and
      charges are the model's integers, for every valid scenario. */
  method RunStock(ps: PressureScenario) returns (m: Measurement)
    requires ps.Valid()
    ensures m.nChildren == ps.nChildren
    ensures ps.prefixTokens > 0 ==> m.parentHits == PressureModel(ps).stockHits
    ensures ps.prefixTokens == 0 ==> m.parentHits == ps.nChildren
    ensures m.parentHits == PressureModel(ps).stockHits <==> (ps.prefixTokens > 0 || ps.interleavedTokens <= ps.capacityTokens)
    ensures m.childPrefillCharged == PressureModel(ps).stockPrefill
    ensures m.prefillCharged == m.childPrefillCharged + NoiseTotal(ps, ps.nChildren)
  {
    hide TokenGen.Valid, Ready, Faced, SuffixesFree, Charge, HitsUpTo, NoiseTotal, Survives;
    hide StockForest.StockOk, Under, StockParentHits, PressureModel, StockRadixCache.Valid;
    var gen := new TokenGen();
    var cache := new StockRadixCache(ps.capacityTokens);
    var prefix := StockParent(gen, cache, ps);
    var childCharged := cache.prefillCharged;
    var hits := 0;
    ghost var last := prefix;
    var i := 0;
    ChargeStep(ps, 0, 0);
    CountStart(ps);
    while i < ps.nChildren
      invariant fresh(gen) && fresh(cache) && gen.Valid() && cache.capacity == ps.capacityTokens
      invariant 0 <= i <= ps.nChildren && cache.Valid() && Ready(cache.Arena(), cache.clock, gen.next, ps, i, prefix, last)
      invariant SuffixesFree(gen.ranges, i)
      invariant hits == HitsUpTo(ps, i) && childCharged == Charge(ps, i, hits)
      invariant cache.prefillCharged == childCharged + NoiseTotal(ps, i)
    {
      HitsStep(ps, i);
      ChargeStep(ps, i, hits);
      SuffixFree(gen.ranges, i);
      if ps.Gap(i) {
        StockGap(gen, cache, ps, i, prefix, last);
      } else {
        NoGap(cache.Arena(), cache.clock, gen.next, ps, i, prefix, last);
      }
      var before := cache.prefillCharged;
      var matched, suffix := StockChild(gen, cache, ps, i, prefix);
      if matched >= ps.prefixTokens {
        hits := hits + 1;
      }
      childCharged := childCharged + cache.prefillCharged - before;
      last := prefix + suffix;
      i := i + 1;
    }
    HitsAreModel(ps);
    ModelHits(ps);
    m := Measurement(hits, ps.nChildren, cache.prefillCharged, childCharged);
  }

  lemma CountStart(ps: PressureScenario)
    ensures HitsUpTo(ps, 0) == 0 && NoiseTotal(ps, 0) == 0
  {
  }

  lemma ModelHits(ps: PressureScenario)
    ensures PressureModel(ps).stockHits == StockParentHits(ps)
  {
  }

  /** The cold parent prefill. */
  method StockParent(gen: TokenGen, cache: StockRadixCache, ps: PressureScenario) returns (prefix: seq<Token>)
    requires ps.Valid() && cache.Valid() && cache.capacity == ps.capacityTokens && cache.at == map[] && cache.prefillCharged == 0
    requires gen.Valid() && gen.next == 0 && gen.ranges == map[]
    modifies gen, cache
    ensures gen.Valid() && cache.Valid() && cache.prefillCharged == ps.prefixTokens && SuffixesFree(gen.ranges, 0)
    ensures Ready(cache.Arena(), cache.clock, gen.next, ps, 0, prefix, prefix)
  {
    hide TokenGen.Valid, Served, Ready, KeepsEnds, StockForest.StockOk, Under, Sheltered;
    prefix := gen.Block("parent", ps.prefixTokens);
    ghost var f := cache.Arena();
    ColdMatch(f, prefix);
    Fits(prefix, 0, ps.capacityTokens);
    var _, _ := cache.RunRequest(prefix);
    ColdStart(f, cache.Arena(), ps, prefix, cache.clock);
    forall j: nat ensures SuffixName(j) != "parent" { assert SuffixName(j)[0] == 's'; }
  }

  /** The blocks of the children from `i` on have not been asked for yet. */
  ghost predicate SuffixesFree(ranges: map<string, nat>, i: nat) {
    forall j: nat | j >= i :: SuffixName(j) !in ranges
  }

  lemma SuffixFree(ranges: map<string, nat>, i: nat)
    requires SuffixesFree(ranges, i)
    ensures SuffixName(i) !in ranges
    ensures forall more: map<string, nat> | more.Keys == ranges.Keys + {SuffixName(i)} :: SuffixesFree(more, i + 1)
  {
    forall more: map<string, nat>, j: nat | more.Keys == ranges.Keys + {SuffixName(i)} && j >= i + 1 ensures SuffixName(j) !in more {
      if SuffixName(j) == SuffixName(i) { SuffixNames(j, i); }
    }
  }

  /** One gap of unrelated traffic. */
  method StockGap(gen: TokenGen, cache: StockRadixCache, ps: PressureScenario, ghost i: nat, ghost prefix: seq<Token>, ghost last: seq<Token>)
    requires ps.Valid() && ps.Gap(i) && gen.Valid() && cache.Valid() && cache.capacity == ps.capacityTokens
    requires Ready(cache.Arena(), cache.clock, gen.next, ps, i, prefix, last)
    modifies gen, cache
    ensures gen.Valid() && cache.Valid() && gen.ranges == old(gen.ranges)
    ensures Faced(cache.Arena(), cache.clock, gen.next, ps, i, prefix)
    ensures cache.prefillCharged == old(cache.prefillCharged) + ps.interleavedTokens
  {
    hide TokenGen.Valid, Served, Ready, Faced, KeepsEnds, StockForest.StockOk, Under, Sheltered;
    ghost var f, now, next := cache.Arena(), cache.clock, gen.next;
    var noise := gen.Fresh(ps.interleavedTokens);
    ReadyStruct(f, now, next, ps, i, prefix, last);
    NoiseMatch(f, next, noise);
    Fits(noise, 0, ps.capacityTokens);
    var _, _ := cache.RunRequest(noise);
    if Survives(ps, i) {
      GapKeeps(f, cache.Arena(), now, next, ps, i, prefix, last, noise);
    } else {
      GapEvicts(f, cache.Arena(), now, next, ps, i, prefix, last, noise);
    }
  }

  /** One child: look for the parent, then serve parent plus suffix. */
  method StockChild(gen: TokenGen, cache: StockRadixCache, ps: PressureScenario, i: nat, prefix: seq<Token>)
    returns (matched: nat, suffix: seq<Token>)
    requires ps.Valid() && gen.Valid() && cache.Valid() && cache.capacity == ps.capacityTokens && i < ps.nChildren
    requires Faced(cache.Arena(), cache.clock, gen.next, ps, i, prefix) && SuffixName(i) !in gen.ranges
    modifies gen, cache
    ensures gen.Valid() && cache.Valid() && gen.ranges.Keys == old(gen.ranges).Keys + {SuffixName(i)}
    ensures Ready(cache.Arena(), cache.clock, gen.next, ps, i + 1, prefix, prefix + suffix)
    ensures matched >= ps.prefixTokens <==> Survives(ps, i)
    ensures cache.prefillCharged == old(cache.prefillCharged) + ps.suffixTokens + (if Survives(ps, i) then 0 else ps.prefixTokens)
  {
    hide TokenGen.Valid, Served, Ready, Faced, KeepsEnds, StockForest.StockOk, Under, Sheltered;
    ghost var f, now, next := cache.Arena(), cache.clock, gen.next;
    FacedPrefix(f, now, next, ps, i, prefix);
    matched := cache.MatchPrefix(prefix);
    suffix := gen.Block(SuffixName(i), ps.suffixTokens);
    ChildMatch(f, now, next, ps, i, prefix, suffix);
    Fits(prefix + suffix, if Survives(ps, i) then |prefix| else 0, ps.capacityTokens);
    var _, _ := cache.RunRequest(prefix + suffix);
    ChildReadies(f, cache.Arena(), now, next, ps, i, prefix, suffix);
  }

  function SuffixName(i: nat): string {
    "suffix-" + Decimal(i)
  }

  lemma SuffixNames(i: nat, j: nat)
    requires SuffixName(i) == SuffixName(j)
    ensures i == j
  {
    assert SuffixName(i)[7..] == Decimal(i) && SuffixName(j)[7..] == Decimal(j);
    DecimalInjective(i, j);
  }

  lemma Fits(tokens: seq<Token>, matched: nat, capacity: nat)
    ensures matched == 0 || |tokens| <= capacity ==> Sheltered(tokens, matched, capacity)
  {
  }

  lemma ReadyStruct(f: Stamped, now: int, next: nat, ps: PressureScenario, i: nat, prefix: seq<Token>, last: seq<Token>)
    requires Ready(f, now, next, ps, i, prefix, last)
    ensures Struct(f) && Known(f, next)
  {
  }

  lemma FacedPrefix(f: Stamped, now: int, next: nat, ps: PressureScenario, i: nat, prefix: seq<Token>)
    requires Faced(f, now, next, ps, i, prefix)
    ensures |prefix| == ps.prefixTokens && (!Survives(ps, i) ==> |prefix| > 0)
  {
  }
}
