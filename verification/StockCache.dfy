/**
`StockRadixCache` of `agentfork/bench/pressure_bench.py`: a radix cache with
leaf-LRU eviction and no pinning.
*/
module StockCache {
  import opened Common
  import opened RadixForest
  import opened BranchTrie
  import opened StockForest

  /******* The law of one request, on values *******/

  /** What serving `tokens` at time `now` turns `f` into. */
  ghost predicate Served(f: Stamped, g: Stamped, now: int, tokens: seq<Token>, matched: nat, capacity: int) {
    && matched == LongestIn(f.at.Keys, NS, tokens)
    && StockOk(g, now) && Latest(g, now, Pos(NS, tokens))
    && Added(f, g, Pos(NS, tokens))
    && RunsOf(g, tokens, matched)
    && (matched == 0 && tokens != [] ==> Displaced(f, g, Pos(NS, tokens), capacity))
  }

  /** All of the request is cached, and nothing else is new. */
  ghost predicate Added(f: Stamped, g: Stamped, q: Pos) {
    Prefixes(q) <= g.at.Keys && g.at.Keys <= f.at.Keys + Prefixes(q)
  }

  /** The matched part and the whole request end on node boundaries, and what
      was missing is one run. */
  ghost predicate RunsOf(g: Stamped, tokens: seq<Token>, matched: nat) {
    && matched <= |tokens|
    && (0 < matched ==> Boundary(g, Pos(NS, tokens[..matched])))
    && (tokens != [] ==> Boundary(g, Pos(NS, tokens)))
    && (matched < |tokens| ==>
          && Pos(NS, tokens[..matched + 1]) in g.at && Pos(NS, tokens) in g.at
          && g.at[Pos(NS, tokens[..matched + 1])] == g.at[Pos(NS, tokens)])
  }

  /** An unrelated request displaces whole runs, until it fits or is alone. */
  ghost predicate Displaced(f: Stamped, g: Stamped, q: Pos, capacity: int) {
    WholeRuns(f, g) && (|g.at| <= capacity || g.at.Keys == Prefixes(q))
  }

  /** Runs stay or go as a whole. */
  ghost predicate WholeRuns(f: Stamped, g: Stamped) {
    forall p, r {:trigger f.at[p], f.at[r]} | p in f.at && r in f.at && f.at[p] == f.at[r] && p in g.at :: r in g.at
  }

  /** The state of the lookup loop of `_insert_and_touch`. */
  ghost predicate Touching(f: Stamped, g: Stamped, now: int, tokens: seq<Token>, node: NodeId, matched: nat) {
    && StockOk(g, now) && g.at.Keys == f.at.Keys && g.roots == f.roots
    && matched <= |tokens| && node in g.nodes && node in g.place
    && g.place[node] == Pos(NS, tokens[..matched])
    && Latest(g, now, g.place[node])
    && (matched == 0 ==> g == f)
  }

  lemma TouchingStart(f: Stamped, now: int, tokens: seq<Token>)
    requires StockOk(f, now - 1)
    ensures NS in f.roots && Touching(f, f, now, tokens, f.roots[NS], 0)
  {
    StockDomain(f, now - 1);
    forall n | Proper(f, n) ensures f.nodes[n].data < now && !Above(f.place[n], Pos(NS, [])) { }
    assert Ordered(f, now);
    assert tokens[..0] == [];
  }

  /** Finding the child to follow. */
  lemma TouchingChild(f: Stamped, g: Stamped, now: int, tokens: seq<Token>, node: NodeId, matched: nat)
    requires Touching(f, g, now, tokens, node, matched) && matched < |tokens| && tokens[matched] in g.nodes[node].children
    ensures var c := g.nodes[node].children[tokens[matched]];
            && Proper(g, c) && g.nodes[c].parent == node && g.nodes[c].tokens != [] && g.nodes[c].tokens[0] == tokens[matched]
            && g.place[c] == Pos(NS, tokens[..matched] + g.nodes[c].tokens)
            && g.place.Keys == g.nodes.Keys
  {
    ChildLink(g, node, tokens[matched]);
  }

  lemma TouchingSplit(f: Stamped, g: Stamped, now: int, tokens: seq<Token>, node: NodeId, matched: nat, k: nat, head: NodeId)
    requires Touching(f, g, now, tokens, node, matched) && matched < |tokens| && tokens[matched] in g.nodes[node].children
    requires head !in g.nodes && StockOk(g, now)
    requires var c := g.nodes[node].children[tokens[matched]];
             Proper(g, c) && 0 < k < |g.nodes[c].tokens| && matched + k <= |tokens| && g.nodes[c].tokens[..k] == tokens[matched..matched + k]
    ensures var c := g.nodes[node].children[tokens[matched]];
            var h := SetData(Split(g, c, k, head), head, now);
            && Touching(f, h, now, tokens, head, matched + k)
            && h.nodes.Keys == g.nodes.Keys + {head}
  {
    hide RadixForest.Rooted, RadixForest.Linked, RadixForest.Indexed, Ordered;
    var c := g.nodes[node].children[tokens[matched]];
    TouchingChild(f, g, now, tokens, node, matched);
    EdgeAt(g, c);
    SplitOrdered(g, now, c, k, head);
    SplitLatest(g, now, g.place[node], c, k, head);
    SplitStruct(g, c, k, head);
    var s := Split(g, c, k, head);
    assert s.place[head] == Pos(NS, tokens[..matched + k]) by {
      assert g.place[c].path[..matched + k] == tokens[..matched] + g.nodes[c].tokens[..k];
      assert tokens[..matched] + tokens[matched..matched + k] == tokens[..matched + k];
    }
    TouchLatest(s, now, g.place[node], head);
    TouchOrdered(s, now, g.place[node], head);
  }

  lemma TouchingFull(f: Stamped, g: Stamped, now: int, tokens: seq<Token>, node: NodeId, matched: nat)
    requires Touching(f, g, now, tokens, node, matched) && matched < |tokens| && tokens[matched] in g.nodes[node].children
    requires var c := g.nodes[node].children[tokens[matched]];
             Proper(g, c) && matched + |g.nodes[c].tokens| <= |tokens|
             && g.nodes[c].tokens == tokens[matched..matched + |g.nodes[c].tokens|]
    ensures var c := g.nodes[node].children[tokens[matched]];
            Touching(f, SetData(g, c, now), now, tokens, c, matched + |g.nodes[c].tokens|)
  {
    hide RadixForest.Rooted, RadixForest.Linked, RadixForest.Indexed, Ordered;
    var c := g.nodes[node].children[tokens[matched]];
    TouchingChild(f, g, now, tokens, node, matched);
    EdgeAt(g, c);
    TouchLatest(g, now, g.place[node], c);
    TouchOrdered(g, now, g.place[node], c);
    assert tokens[..matched] + g.nodes[c].tokens == tokens[..matched + |g.nodes[c].tokens|];
  }

  /** Where the lookup stops is the longest cached prefix. */
  lemma TouchingDone(f: Stamped, g: Stamped, now: int, tokens: seq<Token>, node: NodeId, matched: nat)
    requires Touching(f, g, now, tokens, node, matched)
    requires matched < |tokens| ==> tokens[matched] !in g.nodes[node].children
    ensures matched == LongestIn(f.at.Keys, NS, tokens)
    ensures matched < |tokens| ==> Pos(NS, tokens[..matched + 1]) !in g.at
    ensures 0 < matched ==> Boundary(g, Pos(NS, tokens[..matched]))
  {
    hide StockForest.Ordered, StockForest.Latest, RadixForest.Linked, RadixForest.Rooted, RadixForest.LongestIn, RadixForest.Closed;
    AtClosed(g);
    if 0 < matched { assert Proper(g, node); NodeIsBoundary(g, node); }
    if matched < |tokens| {
      ChildAt(g, node, tokens[matched]);
      assert tokens[..matched] + [tokens[matched]] == tokens[..matched + 1];
    }
    LongestInIs(g.at.Keys, NS, tokens, matched);
  }

  /** A request that is entirely cached only touches. */
  lemma ServedWhole(f: Stamped, g: Stamped, now: int, tokens: seq<Token>, node: NodeId, capacity: int)
    requires Touching(f, g, now, tokens, node, |tokens|)
    ensures Served(f, g, now, tokens, |tokens|, capacity)
  {
    TouchingDone(f, g, now, tokens, node, |tokens|);
    assert tokens[..|tokens|] == tokens;
    forall p | p in Prefixes(Pos(NS, tokens)) ensures p in g.at {
      PrefixesAre(Pos(NS, tokens), p);
      assert p.path == g.place[node].path[..|p.path|];
      Ancestors(g, node, |p.path|);
    }
  }

  lemma HasLeaf(f: Stamped, p: Pos)
    requires Struct(f) && SingleSpace(f) && p in f.at
    ensures Leaves(f) != {}
  {
    assert Covers(f, f.at[p], p);
    var bound := PathBound(f, f.nodes.Keys);
    var leaf := LeafBelow(f, f.at[p], bound);
    assert leaf in Leaves(f);
  }

  /** No leaves: nothing is cached. */
  lemma NoLeaves(f: Stamped)
    requires Struct(f) && SingleSpace(f) && Leaves(f) == {}
    ensures f.at == map[]
  {
    if p :| p in f.at {
      HasLeaf(f, p);
      assert false;
    }
  }

  /** What the eviction loop guarantees about `g`, starting from `f`. */
  ghost predicate MadeRoom(f: Stamped, g: Stamped, now: int, need: nat, capacity: int) {
    && EvictedTo(f, g) && StockOk(g, now)
    && (|g.at| + need <= capacity || g.at == map[])
    && (|f.at| + need <= capacity ==> g == f)
    && Spares(f, g, need, capacity)
  }

  /** No protected path that would fit beside `need` tokens is evicted. */
  ghost predicate Spares(f: Stamped, g: Stamped, need: int, capacity: int) {
    forall q {:trigger Protected(f, q)} | Protected(f, q) && |q.path| + need <= capacity :: q in f.at && f.at[q] in g.nodes
  }

  /** Every protected path that fits beside `need` tokens still ends on a boundary. */
  ghost predicate KeepsEnds(f: Stamped, k: Stamped, need: int, capacity: int) {
    forall q {:trigger Protected(f, q)} | Protected(f, q) && |q.path| + need <= capacity :: Boundary(k, q)
  }

  lemma SparesAll(f: Stamped, now: int, need: int, capacity: int)
    requires StockOk(f, now)
    ensures Spares(f, f, need, capacity)
  {
  }

  /** The attach point is lost exactly when an oversized request matched something. */
  lemma AttachSurvives(f: Stamped, g: Stamped, now: int, tokens: seq<Token>, node: NodeId, matched: nat, capacity: int, h: Stamped)
    requires Touching(f, g, now, tokens, node, matched) && matched < |tokens|
    requires tokens[matched] !in g.nodes[node].children
    requires MadeRoom(g, h, now, |tokens| - matched, capacity)
    ensures node in h.nodes <==> (matched == 0 || |tokens| <= capacity)
  {
    if matched == 0 {
      StockDomain(g, now);
      StockDomain(h, now);
      PlaceInjective(g, node, g.roots[NS]);
    } else {
      var r := g.place[node];
      assert Proper(g, node);
      NodeIsBoundary(g, node);
      if |tokens| <= capacity {
        LatestProtected(g, now, r, r);
      } else if node in h.nodes {
        assert SameNode(g, h, node);
        forall p | p in Prefixes(r) ensures p in h.at {
          PrefixesAre(r, p);
          assert p.path == r.path[..|p.path|];
          Ancestors(h, node, |p.path|);
        }
        SegmentSize(r.ns, r.path, 0, |r.path|);
        PrefixesAre(r, r);
        SubsetSize(Prefixes(r), h.at.Keys);
        assert false;
      }
    }
  }

  /** The attach point has still no child where the request continues. */
  lemma StillNoChild(g: Stamped, h: Stamped, now: int, node: NodeId, k: Token)
    requires StockOk(g, now) && StockOk(h, now) && EvictedTo(g, h) && node in h.nodes && node in g.nodes && k !in g.nodes[node].children
    ensures k !in h.nodes[node].children
  {
    assert SameNode(g, h, node);
    ChildAt(g, node, k);
    ChildAt(h, node, k);
  }

  /** `node` is where `tokens` leaves the cache after `matched` tokens. */
  ghost predicate Attachable(h: Stamped, tokens: seq<Token>, node: NodeId, matched: nat, leaf: NodeId) {
    && Struct(h) && matched < |tokens| && node in h.nodes && node in h.place && leaf !in h.nodes
    && h.place[node] == Pos(NS, tokens[..matched]) && tokens[matched] !in h.nodes[node].children
  }

  lemma InsertedStruct(h: Stamped, now: int, tokens: seq<Token>, node: NodeId, matched: nat, leaf: NodeId)
    requires Attachable(h, tokens, node, matched, leaf)
    ensures var k := AddLeaf(h, node, tokens[matched..], leaf, now);
            && Struct(k)
            && k.at.Keys == h.at.Keys + Segment(NS, tokens, matched, |tokens|)
            && |k.at| == |h.at| + |tokens| - matched
            && Proper(k, leaf) && k.place[leaf] == Pos(NS, tokens) && k.nodes[leaf].tokens == tokens[matched..]
            && node in k.nodes && node in k.place && k.place[node] == h.place[node]
  {
    hide RadixForest.Rooted, RadixForest.Linked, RadixForest.Indexed;
    assert h.place[node].path + tokens[matched..] == tokens;
    AddLeafStruct(h, node, tokens[matched..], leaf, now);
  }

  /** The cached positions after the insertion. */
  lemma InsertedKeys(h: Stamped, now: int, tokens: seq<Token>, node: NodeId, matched: nat, leaf: NodeId)
    requires Attachable(h, tokens, node, matched, leaf)
    ensures Added(h, AddLeaf(h, node, tokens[matched..], leaf, now), Pos(NS, tokens))
    ensures Segment(NS, tokens, matched, |tokens|) <= Prefixes(Pos(NS, tokens))
  {
    hide RadixForest.Rooted, RadixForest.Linked, RadixForest.Indexed, RadixForest.AddLeaf;
    InsertedStruct(h, now, tokens, node, matched, leaf);
    var q := Pos(NS, tokens);
    forall p | p in Prefixes(q) ensures p in h.at.Keys + Segment(NS, tokens, matched, |tokens|) {
      PrefixesAre(q, p);
      if |p.path| <= matched {
        assert p.path == h.place[node].path[..|p.path|];
        Ancestors(h, node, |p.path|);
      } else {
        assert p == Pos(NS, tokens[..|p.path|]);
      }
    }
    forall p | p in Segment(NS, tokens, matched, |tokens|) ensures p in Prefixes(q) { PrefixesAre(q, p); }
  }

  /** The nodes that end and cover where the request was attached. */
  lemma InsertedRuns(h: Stamped, now: int, tokens: seq<Token>, node: NodeId, matched: nat, leaf: NodeId)
    requires Attachable(h, tokens, node, matched, leaf)
    ensures RunsOf(AddLeaf(h, node, tokens[matched..], leaf, now), tokens, matched)
  {
    hide RadixForest.Rooted, RadixForest.Linked, RadixForest.AddLeaf;
    var k := AddLeaf(h, node, tokens[matched..], leaf, now);
    InsertedStruct(h, now, tokens, node, matched, leaf);
    NodeIsBoundary(k, leaf);
    assert Covers(k, leaf, Pos(NS, tokens[..matched + 1]));
    if 0 < matched {
      assert Proper(k, node);
      NodeIsBoundary(k, node);
    }
  }

  lemma ReadyToInsert(f: Stamped, g: Stamped, now: int, tokens: seq<Token>, node: NodeId, matched: nat, capacity: int, h: Stamped, leaf: NodeId)
    requires Touching(f, g, now, tokens, node, matched) && matched < |tokens|
    requires tokens[matched] !in g.nodes[node].children
    requires MadeRoom(g, h, now, |tokens| - matched, capacity)
    requires node in h.nodes && leaf !in h.nodes
    ensures Attachable(h, tokens, node, matched, leaf)
    ensures h.at.Keys <= f.at.Keys
  {
    hide StockForest.Ordered, StockForest.Latest, StockForest.Protected;
    StillNoChild(g, h, now, node, tokens[matched]);
    assert SameNode(g, h, node);
  }

  lemma InsertedOk(f: Stamped, g: Stamped, now: int, tokens: seq<Token>, node: NodeId, matched: nat, capacity: int, h: Stamped, leaf: NodeId)
    requires Touching(f, g, now, tokens, node, matched) && matched < |tokens|
    requires MadeRoom(g, h, now, |tokens| - matched, capacity)
    requires Attachable(h, tokens, node, matched, leaf)
    ensures var k := AddLeaf(h, node, tokens[matched..], leaf, now);
            StockOk(k, now) && Latest(k, now, Pos(NS, tokens))
  {
    hide RadixForest.Rooted, RadixForest.Linked, RadixForest.Indexed, StockForest.Ordered, StockForest.Latest, StockForest.Protected;
    EvictedLatest(g, h, now, g.place[node]);
    assert SameNode(g, h, node);
    assert tokens[..matched] + tokens[matched..] == tokens;
    InsertLatest(h, now, node, tokens[matched..], leaf);
    InsertOrdered(h, now, node, tokens[matched..], leaf);
  }

  lemma AddedMore(f: Stamped, h: Stamped, k: Stamped, q: Pos)
    requires Added(h, k, q) && h.at.Keys <= f.at.Keys
    ensures Added(f, k, q)
  {
  }

  /** A request that fits, or matched nothing, is served in full. */
  lemma ServedInsert(f: Stamped, g: Stamped, now: int, tokens: seq<Token>, node: NodeId, matched: nat, capacity: int, h: Stamped, leaf: NodeId)
    requires Touching(f, g, now, tokens, node, matched) && matched < |tokens|
    requires tokens[matched] !in g.nodes[node].children
    requires MadeRoom(g, h, now, |tokens| - matched, capacity)
    requires Attachable(h, tokens, node, matched, leaf) && h.at.Keys <= f.at.Keys
    ensures Served(f, AddLeaf(h, node, tokens[matched..], leaf, now), now, tokens, matched, capacity)
  {
    hide RadixForest.Struct, StockForest.StockOk, StockForest.Latest, Touching, MadeRoom;
    hide RadixForest.AddLeaf, RunsOf, Displaced, Added, RadixForest.LongestIn;
    TouchingDone(f, g, now, tokens, node, matched);
    InsertedOk(f, g, now, tokens, node, matched, capacity, h, leaf);
    InsertedKeys(h, now, tokens, node, matched, leaf);
    AddedMore(f, h, AddLeaf(h, node, tokens[matched..], leaf, now), Pos(NS, tokens));
    InsertedRuns(h, now, tokens, node, matched, leaf);
    if matched == 0 { InsertedWhole(f, g, now, tokens, node, h, leaf, capacity); }
  }

  /** Nothing cached before lies on the way to a request that matched nothing. */
  lemma Unrelated(f: Stamped, g: Stamped, now: int, tokens: seq<Token>, node: NodeId, p: Pos)
    requires Touching(f, g, now, tokens, node, 0) && tokens != [] && tokens[0] !in g.nodes[node].children
    requires p in f.at && p.path != []
    ensures !Above(p, Pos(NS, tokens))
  {
    hide StockForest.Ordered, StockForest.Latest;
    TouchingDone(f, g, now, tokens, node, 0);
    if Above(p, Pos(NS, tokens)) {
      assert p.path[..1] == tokens[..1];
      PrefixClosed(f, p, 1);
      assert false;
    }
  }

  lemma InsertedWhole(f: Stamped, g: Stamped, now: int, tokens: seq<Token>, node: NodeId, h: Stamped, leaf: NodeId, capacity: int)
    requires Touching(f, g, now, tokens, node, 0) && tokens != [] && tokens[0] !in g.nodes[node].children
    requires MadeRoom(g, h, now, |tokens|, capacity) && Attachable(h, tokens, node, 0, leaf)
    ensures var k := AddLeaf(h, node, tokens[0..], leaf, now);
            Displaced(f, k, Pos(NS, tokens), capacity)
  {
    hide StockForest.Ordered, StockForest.Latest, StockForest.Protected, RadixForest.AddLeaf, RadixForest.Rooted, RadixForest.Linked;
    var k := AddLeaf(h, node, tokens[0..], leaf, now);
    InsertedStruct(h, now, tokens, node, 0, leaf);
    InsertedKeys(h, now, tokens, node, 0, leaf);
    forall p, r | p in f.at && r in f.at && f.at[p] == f.at[r] && p in k.at ensures r in k.at {
      assert Covers(f, f.at[p], p);
      Unrelated(f, g, now, tokens, node, p);
      PrefixesAre(Pos(NS, tokens), p);
    }
  }

  /** A path that was protected is still a boundary after an unrelated request. */
  lemma KeptBoundary(f: Stamped, g: Stamped, now: int, tokens: seq<Token>, node: NodeId, capacity: int, h: Stamped, leaf: NodeId, q: Pos)
    requires Touching(f, g, now, tokens, node, 0) && MadeRoom(g, h, now, |tokens|, capacity) && Attachable(h, tokens, node, 0, leaf)
    requires Protected(f, q) && |q.path| + |tokens| <= capacity
    ensures Boundary(AddLeaf(h, node, tokens[0..], leaf, now), q)
  {
    hide StockForest.Ordered, StockForest.Latest;
    EvictedProtected(g, h, q);
    BoundaryNode(h, q);
    var k := AddLeaf(h, node, tokens[0..], leaf, now);
    InsertedStruct(h, now, tokens, node, 0, leaf);
    assert Proper(k, h.at[q]);
    NodeIsBoundary(k, h.at[q]);
  }

  /******* The cache object *******/

  class StockRadixCache {
    const capacity: nat
    const root: NodeId := 0
    var nodes: map<NodeId, Node<int>>
    var nextNode: NodeId
    var resident: int
    var prefillCharged: int
    var clock: int
    ghost var place: map<NodeId, Pos>
    ghost var at: map<Pos, NodeId>

    ghost function Arena(): Stamped
      reads this`nodes, this`place, this`at
    {
      Forest(nodes, map[NS := root], place, at)
    }

    ghost predicate Valid()
      reads this
    {
      && StockOk(Arena(), clock)
      && resident == |at|
      && Under(nodes, nextNode)
    }

    constructor (capacity: nat)
      requires capacity > 0
      ensures Valid() && this.capacity == capacity && at == map[] && prefillCharged == 0 && clock == 0
    {
      this.capacity := capacity;
      nodes, nextNode := map[0 := Node([], map[], 0, 0)], 1;
      resident, prefillCharged, clock := 0, 0, 0;
      place, at := map[0 := Pos(NS, [])], map[];
    }

    /** `match_prefix`: the longest cached prefix, without disturbing the order of use. */
    method MatchPrefix(tokens: seq<Token>) returns (matched: nat)
      requires Valid()
      ensures matched == LongestIn(at.Keys, NS, tokens)
    {
      hide RadixForest.Struct, StockForest.SingleSpace, StockForest.Ordered;
      ghost var f := Arena();
      StockDomain(f, clock);
      var node := root;
      matched := 0;
      while matched < |tokens|
        invariant matched <= |tokens| && node in nodes && node in place && place[node] == Pos(NS, tokens[..matched])
      {
        if tokens[matched] !in nodes[node].children {
          break;
        }
        var next := nodes[node].children[tokens[matched]];
        ChildLink(f, node, tokens[matched]);
        var run := nodes[next].tokens;
        if matched + |run| > |tokens| || tokens[matched..matched + |run|] != run {
          var common := CommonPrefix(run, tokens, matched);
          PartialMatch(f, node, next, tokens, matched, common);
          matched := matched + common;
          return;
        }
        assert tokens[..matched] + run == tokens[..matched + |run|];
        matched := matched + |run|;
        node := next;
      }
      FullMatch(f, node, tokens, matched);
    }

    /** The lookup of `_insert_and_touch`: split where the request leaves a run, stamp what it passes. */
    static method TouchPath(nodes: map<NodeId, Node<int>>, root: NodeId, next: NodeId, tokens: seq<Token>, now: int, ghost f: Stamped)
      returns (touched: map<NodeId, Node<int>>, fresh': NodeId, node: NodeId, matched: nat, ghost g: Stamped)
      requires StockOk(f, now - 1) && f.nodes == nodes && f.roots == map[NS := root] && Under(nodes, next)
      ensures Touching(f, g, now, tokens, node, matched) && g.nodes == touched
      ensures matched < |tokens| ==> tokens[matched] !in touched[node].children
      ensures Under(touched, fresh')
    {
      hide Touching, RadixForest.Split, StockForest.StockOk, Under, KeysUnder, RadixForest.Struct, RadixForest.EdgeOk;
      TouchingStart(f, now, tokens);
      touched, fresh', node, matched, g := nodes, next, root, 0, f;
      TouchingAt(f, g, now, tokens, node, matched);
      while matched < |tokens|
        invariant Touching(f, g, now, tokens, node, matched) && g.nodes == touched
        invariant node in touched && matched <= |tokens|
        invariant Under(touched, fresh')
      {
        if tokens[matched] !in touched[node].children {
          break;
        }
        var child := touched[node].children[tokens[matched]];
        TouchingChild(f, g, now, tokens, node, matched);
        var run := touched[child].tokens;
        if matched + |run| > |tokens| || tokens[matched..matched + |run|] != run {
          var common := CommonPrefix(run, tokens, matched);
          UnderFresh(touched, fresh');
          UnderMore(touched, touched.Keys + {fresh'}, fresh');
          touched, g := SplitAndTouch(touched, child, common, fresh', now, f, g, tokens, node, matched);
          node, fresh', matched := fresh', fresh' + 1, matched + common;
          UnderKeys(touched, fresh');
        } else {
          UnderSet(touched, fresh', child, now);
          touched, g := TouchWhole(touched, child, now, f, g, tokens, node, matched);
          node, matched := child, matched + |run|;
        }
        TouchingAt(f, g, now, tokens, node, matched);
      }
    }

    /** The visit of a child whose whole run the query follows. */
    static method TouchWhole(nodes: map<NodeId, Node<int>>, child: NodeId, now: int,
                             ghost f: Stamped, ghost g: Stamped, ghost tokens: seq<Token>, ghost node: NodeId, ghost matched: nat)
      returns (touched: map<NodeId, Node<int>>, ghost h: Stamped)
      requires Touching(f, g, now, tokens, node, matched) && g.nodes == nodes && matched < |tokens| && node in nodes && child in nodes
      requires tokens[matched] in g.nodes[node].children && g.nodes[node].children[tokens[matched]] == child
      requires Proper(g, child) && matched + |nodes[child].tokens| <= |tokens| && tokens[matched..matched + |nodes[child].tokens|] == nodes[child].tokens
      ensures Touching(f, h, now, tokens, child, matched + |nodes[child].tokens|) && h.nodes == touched
      ensures touched == nodes[child := nodes[child].(data := now)]
    {
      hide Touching, StockForest.StockOk, RadixForest.Struct, RadixForest.EdgeOk;
      TouchingFull(f, g, now, tokens, node, matched);
      h := SetData(g, child, now);
      touched := nodes[child := nodes[child].(data := now)];
    }

    /** `_split`, and the visit of the new head in the next round of the source's loop. */
    static method SplitAndTouch(nodes: map<NodeId, Node<int>>, child: NodeId, k: nat, head: NodeId, now: int,
                                ghost f: Stamped, ghost g: Stamped, ghost tokens: seq<Token>, ghost node: NodeId, ghost matched: nat)
      returns (touched: map<NodeId, Node<int>>, ghost h: Stamped)
      requires Touching(f, g, now, tokens, node, matched) && g.nodes == nodes && matched < |tokens| && head !in nodes
      requires tokens[matched] in g.nodes[node].children && g.nodes[node].children[tokens[matched]] == child
      requires Proper(g, child) && 0 < k < |g.nodes[child].tokens| && matched + k <= |tokens|
      requires g.nodes[child].tokens[..k] == tokens[matched..matched + k]
      ensures Touching(f, h, now, tokens, head, matched + k) && h.nodes == touched
      ensures h.nodes.Keys == nodes.Keys + {head}
    {
      hide RadixForest.Struct, StockForest.SingleSpace, StockForest.Ordered, StockForest.Latest, RadixForest.SplitNodes;
      TouchingSplit(f, g, now, tokens, node, matched, k, head);
      EdgeAt(g, child);
      ghost var s := RadixForest.Split(g, child, k, head);
      h := SetData(s, head, now);
      touched := SplitNodes(nodes, child, k, head);
      touched := touched[head := touched[head].(data := now)];
    }

    /** `_evict`: remove least recently used leaves until there is room. */
    static method Evict(nodes: map<NodeId, Node<int>>, resident: int, need: nat, capacity: nat, ghost f: Stamped, ghost now: int)
      returns (kept: map<NodeId, Node<int>>, left: int, ghost g: Stamped)
      requires StockOk(f, now) && f.nodes == nodes && resident == |f.at|
      ensures MadeRoom(f, g, now, need, capacity) && g.nodes == kept && left == |g.at|
      ensures kept.Keys <= nodes.Keys
    {
      hide RadixForest.Struct, StockForest.SingleSpace, StockForest.Ordered, StockForest.EvictedTo, StockForest.Victim, Spares;
      hide RadixForest.DetachNodes;
      kept, left, g := nodes, resident, f;
      StockDomain(f, now);
      EvictedNothing(f);
      SparesAll(f, now, need, capacity);
      while left + need > capacity
        invariant EvictedTo(f, g) && StockOk(g, now) && g.nodes == kept && left == |g.at| && kept.Keys <= nodes.Keys
        invariant |f.at| + need <= capacity ==> g == f
        invariant Spares(f, g, need, capacity)
        decreases |kept|
      {
        var victim := LeastRecent(kept, g, now);
        if victim.None? {
          break;
        }
        var v := victim.value;
        VictimFacts(g, now, v);
        ghost var h := RemoveLeaf(g, v);
        RemoveLeafStruct(g, v);
        EvictedOne(f, g, v);
        EvictedOk(f, h, now);
        SparesStep(f, g, now, v, need, capacity);
        left := left - |kept[v].tokens|;
        DetachShrinks(kept, v);
        kept, g := DetachNodes(kept, v), h;
      }
    }

    /** `_all_leaves` and `min`: the leaf to evict next, if there is any. */
    static method LeastRecent(nodes: map<NodeId, Node<int>>, ghost g: Stamped, ghost now: int) returns (victim: Option<NodeId>)
      requires StockOk(g, now) && g.nodes == nodes
      ensures victim.None? ==> g.at == map[]
      ensures victim.Some? ==> Victim(g, victim.value)
    {
      hide RadixForest.Struct, StockForest.SingleSpace, StockForest.Ordered;
      var leaves := set n | n in nodes && nodes[n].tokens != [] && nodes[n].children.Keys == {};
      LeavesAre(g, now);
      if leaves == {} {
        NoLeaves(g);
        return None;
      }
      var best :| best in leaves;
      var todo := leaves - {best};
      while todo != {}
        invariant best in leaves && todo <= leaves
        invariant forall n | n in leaves && n !in todo :: nodes[best].data <= nodes[n].data
      {
        var n :| n in todo;
        todo := todo - {n};
        if nodes[n].data < nodes[best].data {
          best := n;
        }
      }
      victim := Some(best);
    }

    /** `run_request`: the whole effect of serving one request. */
    method RunRequest(tokens: seq<Token>) returns (matched: nat, charged: nat)
      requires Valid()
      modifies this
      ensures matched == LongestIn(old(at).Keys, NS, tokens) && charged == |tokens| - matched
      ensures prefillCharged == old(prefillCharged) + charged && clock == old(clock) + 1
      ensures Valid() <==> Sheltered(tokens, matched, capacity)
      ensures Sheltered(tokens, matched, capacity) ==> Served(old(Arena()), Arena(), clock, tokens, matched, capacity)
      ensures !Sheltered(tokens, matched, capacity) ==> StockOk(Arena(), clock) && resident == |at| + charged
      ensures old(resident) <= capacity && |tokens| <= capacity ==> resident <= capacity
      ensures matched == 0 ==> KeepsEnds(old(Arena()), Arena(), |tokens|, capacity)
    {
      hide Touching, MadeRoom, Served, KeepsEnds, StockForest.StockOk, StockForest.EvictedTo;
      ghost var f := Arena();
      var now := clock + 1;
      ghost var g;
      var touched, next, node;
      touched, next, node, matched, g := TouchPath(nodes, root, nextNode, tokens, now, f);
      TouchingDone(f, g, now, tokens, node, matched);
      TouchingAt(f, g, now, tokens, node, matched);
      charged := |tokens| - matched;
      var left := resident;
      if charged > 0 {
        touched, left, next, g := Insert(touched, resident, next, capacity, tokens, node, matched, now, f, g);
      } else {
        ServedWhole(f, g, now, tokens, node, capacity);
        ServedOk(f, g, now, tokens, matched, capacity);
        if matched == 0 { KeepsEndsSame(f, |tokens|, capacity); }
      }
      Store(touched, next, left, prefillCharged + charged, now, g);
    }

    /** The insertion half: make room, then hang the rest of the request below the
        attach point -- which is no longer part of the tree if it was evicted. */
    static method Insert(nodes: map<NodeId, Node<int>>, resident: int, next: NodeId, capacity: nat, tokens: seq<Token>, node: NodeId,
                         matched: nat, now: int, ghost f: Stamped, ghost g: Stamped)
      returns (grown: map<NodeId, Node<int>>, left: int, next': NodeId, ghost k: Stamped)
      requires Touching(f, g, now, tokens, node, matched) && g.nodes == nodes && matched < |tokens|
      requires tokens[matched] !in nodes[node].children && resident == |f.at| && Under(nodes, next)
      ensures k.nodes == grown && k.roots == f.roots && Under(grown, next')
      ensures (StockOk(k, now) && left == |k.at|) <==> Sheltered(tokens, matched, capacity)
      ensures Sheltered(tokens, matched, capacity) ==> Served(f, k, now, tokens, matched, capacity)
      ensures !Sheltered(tokens, matched, capacity) ==> StockOk(k, now) && left == |k.at| + |tokens| - matched
      ensures resident <= capacity && |tokens| <= capacity ==> left <= capacity
      ensures matched == 0 ==> KeepsEnds(f, k, |tokens|, capacity)
    {
      hide Served, KeepsEnds, StockForest.StockOk, RadixForest.GraftNodes, Touching, MadeRoom, Grown, Under, KeysUnder;
      TouchingAt(f, g, now, tokens, node, matched);
      ghost var h;
      grown, left, h := Evict(nodes, resident, |tokens| - matched, capacity, g, now);
      UnderFresh(nodes, next);
      Inserted(f, g, now, tokens, node, matched, capacity, h, next);
      RoomFacts(g, h, now, |tokens| - matched, capacity);
      k := Grown(h, tokens, node, matched, next, now);
      if node in grown {
        grown := GraftNodes(grown, node, tokens[matched..], next, now);
      }
      left, next' := left + |tokens[matched..]|, next + 1;
      UnderMore(nodes, grown.Keys, next);
      UnderKeys(grown, next');
    }

    method Store(nodes: map<NodeId, Node<int>>, nextNode: NodeId, resident: int, prefillCharged: int, clock: int, ghost g: Stamped)
      requires g.nodes == nodes && g.roots == map[NS := root]
      modifies this
      ensures Arena() == g && this.nextNode == nextNode && this.resident == resident
      ensures this.prefillCharged == prefillCharged && this.clock == clock
    {
      this.nodes, this.nextNode, this.resident := nodes, nextNode, resident;
      this.prefillCharged, this.clock := prefillCharged, clock;
      place, at := g.place, g.at;
    }
  }

  /** The attach point of a request survives its own eviction exactly when the
      request fits, matched nothing, or needed no room. */
  predicate Sheltered(tokens: seq<Token>, matched: nat, capacity: nat) {
    matched == 0 || matched == |tokens| || |tokens| <= capacity
  }

  /** The arena after the insertion, given what eviction left. */
  ghost function Grown(h: Stamped, tokens: seq<Token>, node: NodeId, matched: nat, leaf: NodeId, now: int): Stamped {
    if Attachable(h, tokens, node, matched, leaf) then AddLeaf(h, node, tokens[matched..], leaf, now) else h
  }

  lemma Inserted(f: Stamped, g: Stamped, now: int, tokens: seq<Token>, node: NodeId, matched: nat, capacity: nat, h: Stamped, leaf: NodeId)
    requires Touching(f, g, now, tokens, node, matched) && matched < |tokens|
    requires node in g.nodes && tokens[matched] !in g.nodes[node].children
    requires MadeRoom(g, h, now, |tokens| - matched, capacity)
    requires leaf !in h.nodes
    ensures var k := Grown(h, tokens, node, matched, leaf, now);
            && (node in h.nodes <==> Sheltered(tokens, matched, capacity))
            && k.roots == f.roots
            && k.nodes == (if node in h.nodes then GraftNodes(h.nodes, node, tokens[matched..], leaf, now) else h.nodes)
            && k.nodes.Keys <= h.nodes.Keys + {leaf}
            && |k.at| == |h.at| + (if node in h.nodes then |tokens| - matched else 0)
            && StockOk(k, now) && (node in h.nodes ==> Served(f, k, now, tokens, matched, capacity))
            && (matched == 0 ==> KeepsEnds(f, k, |tokens|, capacity))
  {
    hide Served, KeepsEnds, StockForest.StockOk, Touching, MadeRoom, Attachable, RadixForest.Struct;
    hide RadixForest.AddLeaf, RadixForest.GraftNodes, Grown;
    AttachSurvives(f, g, now, tokens, node, matched, capacity, h);
    RoomFacts(g, h, now, |tokens| - matched, capacity);
    TouchingAt(f, g, now, tokens, node, matched);
    if node in h.nodes {
      InsertedKept(f, g, now, tokens, node, matched, capacity, h, leaf);
    } else {
      NotAttachable(h, tokens, node, matched, leaf);
    }
  }

  lemma InsertedKept(f: Stamped, g: Stamped, now: int, tokens: seq<Token>, node: NodeId, matched: nat, capacity: nat, h: Stamped, leaf: NodeId)
    requires Touching(f, g, now, tokens, node, matched) && matched < |tokens|
    requires node in g.nodes && tokens[matched] !in g.nodes[node].children
    requires MadeRoom(g, h, now, |tokens| - matched, capacity)
    requires leaf !in h.nodes && node in h.nodes
    ensures var k := Grown(h, tokens, node, matched, leaf, now);
            && k.roots == h.roots
            && k.nodes == GraftNodes(h.nodes, node, tokens[matched..], leaf, now) && k.nodes.Keys == h.nodes.Keys + {leaf}
            && |k.at| == |h.at| + |tokens| - matched
            && StockOk(k, now) && Served(f, k, now, tokens, matched, capacity)
            && (matched == 0 ==> KeepsEnds(f, k, |tokens|, capacity))
  {
    hide Served, KeepsEnds, StockForest.StockOk, Touching, MadeRoom, Attachable, RadixForest.Struct;
    hide RadixForest.AddLeaf, RadixForest.GraftNodes, Grown;
    ReadyToInsert(f, g, now, tokens, node, matched, capacity, h, leaf);
    AttachableFacts(h, tokens, node, matched, leaf);
    ServedInsert(f, g, now, tokens, node, matched, capacity, h, leaf);
    ServedOk(f, AddLeaf(h, node, tokens[matched..], leaf, now), now, tokens, matched, capacity);
    GrownParts(h, tokens, node, matched, leaf, now);
    if matched == 0 { KeptEnds(f, g, now, tokens, node, capacity, h, leaf); }
  }

  lemma NotAttachable(h: Stamped, tokens: seq<Token>, node: NodeId, matched: nat, leaf: NodeId)
    requires node !in h.nodes
    ensures forall now :: Grown(h, tokens, node, matched, leaf, now) == h
  {
  }

  lemma GrownParts(h: Stamped, tokens: seq<Token>, node: NodeId, matched: nat, leaf: NodeId, now: int)
    requires Attachable(h, tokens, node, matched, leaf)
    ensures var k := Grown(h, tokens, node, matched, leaf, now);
            && k == AddLeaf(h, node, tokens[matched..], leaf, now)
            && k.nodes == GraftNodes(h.nodes, node, tokens[matched..], leaf, now) && k.roots == h.roots
            && k.nodes.Keys == h.nodes.Keys + {leaf}
            && |k.at| == |h.at| + |tokens| - matched
  {
    InsertedStruct(h, now, tokens, node, matched, leaf);
    GraftKeys(h.nodes, node, tokens[matched..], leaf, now);
  }

  /** Node identities already handed out. */
  ghost predicate Under(nodes: map<NodeId, Node<int>>, next: NodeId) {
    forall n | n in nodes :: n < next
  }

  ghost predicate KeysUnder(keys: set<NodeId>, next: NodeId) {
    forall n | n in keys :: n < next
  }

  lemma UnderFresh(nodes: map<NodeId, Node<int>>, next: NodeId)
    requires Under(nodes, next)
    ensures next !in nodes
  {
  }

  lemma UnderMore(nodes: map<NodeId, Node<int>>, keys: set<NodeId>, next: NodeId)
    requires Under(nodes, next) && keys <= nodes.Keys + {next}
    ensures KeysUnder(keys, next + 1)
  {
  }

  lemma UnderKeys(nodes: map<NodeId, Node<int>>, next: NodeId)
    requires KeysUnder(nodes.Keys, next)
    ensures Under(nodes, next)
  {
  }

  lemma UnderSet(nodes: map<NodeId, Node<int>>, next: NodeId, n: NodeId, now: int)
    requires Under(nodes, next) && n in nodes
    ensures Under(nodes[n := nodes[n].(data := now)], next)
  {
  }

  /******* Interface of the loops *******/

  lemma TouchingAt(f: Stamped, g: Stamped, now: int, tokens: seq<Token>, node: NodeId, matched: nat)
    requires Touching(f, g, now, tokens, node, matched)
    ensures node in g.nodes && node in g.place && matched <= |tokens| && g.roots == f.roots && |g.at| == |f.at|
    ensures matched == 0 ==> g == f
    ensures StockOk(g, now)
  {
    assert |g.at| == |g.at.Keys| && |f.at| == |f.at.Keys|;
  }

  lemma ServedOk(f: Stamped, g: Stamped, now: int, tokens: seq<Token>, matched: nat, capacity: int)
    requires Served(f, g, now, tokens, matched, capacity)
    ensures StockOk(g, now)
  {
  }

  lemma KeepsEndsSame(f: Stamped, need: int, capacity: int)
    ensures KeepsEnds(f, f, need, capacity)
  {
  }

  lemma KeptEnds(f: Stamped, g: Stamped, now: int, tokens: seq<Token>, node: NodeId, capacity: int, h: Stamped, leaf: NodeId)
    requires Touching(f, g, now, tokens, node, 0) && MadeRoom(g, h, now, |tokens|, capacity) && Attachable(h, tokens, node, 0, leaf)
    ensures KeepsEnds(f, AddLeaf(h, node, tokens[0..], leaf, now), |tokens|, capacity)
  {
    forall q | Protected(f, q) && |q.path| + |tokens| <= capacity ensures Boundary(AddLeaf(h, node, tokens[0..], leaf, now), q) {
      KeptBoundary(f, g, now, tokens, node, capacity, h, leaf, q);
    }
  }

  lemma RoomFacts(f: Stamped, g: Stamped, now: int, need: nat, capacity: int)
    requires MadeRoom(f, g, now, need, capacity)
    ensures g.roots == f.roots && (|g.at| + need <= capacity || |g.at| == 0) && StockOk(g, now)
  {
  }

  lemma AttachableFacts(h: Stamped, tokens: seq<Token>, node: NodeId, matched: nat, leaf: NodeId)
    requires Attachable(h, tokens, node, matched, leaf)
    ensures Struct(h) && node in h.nodes && matched < |tokens|
  {
  }

  lemma GraftKeys(nodes: map<NodeId, Node<int>>, n: NodeId, run: seq<Token>, leaf: NodeId, data: int)
    requires n in nodes && run != []
    ensures GraftNodes(nodes, n, run, leaf, data).Keys == nodes.Keys + {leaf}
  {
  }

  lemma LeavesAre(f: Stamped, now: int)
    requires StockOk(f, now)
    ensures Leaves(f) == set n | n in f.nodes && f.nodes[n].tokens != [] && f.nodes[n].children.Keys == {}
  {
    forall n | n in f.nodes ensures Proper(f, n) <==> f.nodes[n].tokens != [] {
      EdgeAt(f, n);
      if f.place[n].path == [] { assert f.roots[f.place[n].ns] == n; }
    }
  }

  lemma VictimFacts(f: Stamped, now: int, v: NodeId)
    requires StockOk(f, now) && Victim(f, v)
    ensures v in f.nodes && v in f.place && f.place[v].path != [] && f.nodes[v].children.Keys == {} && EdgeOk(f, v)
    ensures Struct(f) && f.nodes[v].parent != v
  {
    EdgeAt(f, v);
  }

  lemma StillProtected(f: Stamped, g: Stamped, now: int, q: Pos, v: NodeId, need: nat, capacity: nat)
    requires StockOk(g, now) && EvictedTo(f, g) && Protected(f, q) && f.at[q] in g.nodes && Victim(g, v)
    requires v in g.place && g.place[v].path != []
    requires |g.at| + need > capacity && |q.path| + need <= capacity
    ensures f.at[q] in g.nodes.Keys - {v}
  {
    EvictedProtected(f, g, q);
    if v == g.at[q] {
      ProtectedLast(g, q, v);
      assert false;
    }
  }

  lemma SparesStep(f: Stamped, g: Stamped, now: int, v: NodeId, need: nat, capacity: nat)
    requires StockOk(g, now) && EvictedTo(f, g) && Spares(f, g, need, capacity) && Victim(g, v)
    requires v in g.place && g.place[v].path != [] && |g.at| + need > capacity
    ensures Spares(f, RemoveLeaf(g, v), need, capacity)
  {
    EdgeAt(g, v);
    forall q | Protected(f, q) && |q.path| + need <= capacity ensures q in f.at && f.at[q] in RemoveLeaf(g, v).nodes {
      StillProtected(f, g, now, q, v, need, capacity);
    }
  }

  lemma DetachShrinks(nodes: map<NodeId, Node<int>>, n: NodeId)
    requires n in nodes && nodes[n].parent in nodes && nodes[n].tokens != [] && nodes[n].parent != n
    ensures |DetachNodes(nodes, n)| < |nodes| && DetachNodes(nodes, n).Keys == nodes.Keys - {n}
  {
    assert |DetachNodes(nodes, n).Keys| == |nodes.Keys| - 1;
  }

  /** A lookup that stops inside a run matched exactly up to there. */
  lemma PartialMatch(f: Stamped, node: NodeId, c: NodeId, tokens: seq<Token>, matched: nat, common: nat)
    requires Struct(f) && node in f.nodes && node in f.place && matched < |tokens| && f.place[node] == Pos(NS, tokens[..matched])
    requires EdgeOk(f, c) && f.nodes[c].parent == node
    requires 0 < common < |f.nodes[c].tokens| && matched + common <= |tokens|
    requires f.nodes[c].tokens[..common] == tokens[matched..matched + common]
    requires matched + common < |tokens| ==> f.nodes[c].tokens[common] != tokens[matched + common]
    ensures matched + common == LongestIn(f.at.Keys, NS, tokens)
  {
    hide RadixForest.Rooted, RadixForest.Linked, RadixForest.LongestIn, RadixForest.Closed, RadixForest.Indexed;
    AtClosed(f);
    var k := matched + common;
    PartialAt(f, node, c, tokens, matched, common);
    if k < |tokens| && Pos(NS, tokens[..k + 1]) in f.at {
      PastTheFork(f, c, tokens, k);
      assert false;
    }
    LongestInIs(f.at.Keys, NS, tokens, k);
  }

  /** The query agrees with the run of `c` for `common` tokens. */
  lemma PartialAt(f: Stamped, node: NodeId, c: NodeId, tokens: seq<Token>, matched: nat, common: nat)
    requires Struct(f) && node in f.nodes && node in f.place && matched < |tokens| && f.place[node] == Pos(NS, tokens[..matched])
    requires EdgeOk(f, c) && f.nodes[c].parent == node
    requires 0 < common < |f.nodes[c].tokens| && matched + common <= |tokens|
    requires f.nodes[c].tokens[..common] == tokens[matched..matched + common]
    ensures var k := matched + common;
            && k < |f.place[c].path| && Covers(f, c, Pos(NS, tokens[..k])) && Pos(NS, tokens[..k]) in f.at && f.at[Pos(NS, tokens[..k])] == c
            && f.place[c].path[..k] == tokens[..k] && f.place[c].path[k] == f.nodes[c].tokens[common]
  {
    hide RadixForest.Rooted, RadixForest.Linked;
    var k := matched + common;
    assert f.place[c].path[..k] == tokens[..matched] + f.nodes[c].tokens[..common];
    assert tokens[..k] == tokens[..matched] + tokens[matched..k];
    assert Covers(f, c, Pos(NS, tokens[..k]));
  }

  /** Runs do not overlap: a cached position that continues inside a run is on that run. */
  lemma PastTheFork(f: Stamped, c: NodeId, tokens: seq<Token>, k: nat)
    requires Struct(f) && EdgeOk(f, c) && k < |tokens| && k < |f.place[c].path|
    requires Covers(f, c, Pos(NS, tokens[..k])) && Pos(NS, tokens[..k + 1]) in f.at
    ensures f.place[c].path[k] == tokens[k]
  {
    var p := Pos(NS, tokens[..k + 1]);
    var e := f.at[p];
    assert Covers(f, e, p);
    assert EdgeOk(f, e);
    var start := |f.place[e].path| - |f.nodes[e].tokens|;
    if start < k {
      assert tokens[..k] == f.place[e].path[..k] by { assert tokens[..k] == tokens[..k + 1][..k]; }
      assert Covers(f, e, Pos(NS, tokens[..k]));
      assert e == c;
      assert f.place[e].path[k] == tokens[..k + 1][k];
    } else {
      var m := f.nodes[e].parent;
      assert f.place[m].path == tokens[..k] by { assert tokens[..k + 1][..k] == tokens[..k]; }
      assert f.place[m] == Pos(NS, tokens[..k]);
      assert EdgeOk(f, m);
      assert Covers(f, m, f.place[m]);
      assert false;
    }
  }

  lemma FullMatch(f: Stamped, node: NodeId, tokens: seq<Token>, matched: nat)
    requires Struct(f) && node in f.nodes && node in f.place && matched <= |tokens| && f.place[node] == Pos(NS, tokens[..matched])
    requires matched < |tokens| ==> tokens[matched] !in f.nodes[node].children
    ensures matched == LongestIn(f.at.Keys, NS, tokens)
  {
    hide RadixForest.Rooted, RadixForest.Linked, RadixForest.Indexed, RadixForest.LongestIn, RadixForest.Closed;
    AtClosed(f);
    if 0 < matched { assert Proper(f, node); NodeIsBoundary(f, node); }
    if matched < |tokens| {
      ChildAt(f, node, tokens[matched]);
      assert tokens[..matched] + [tokens[matched]] == tokens[..matched + 1];
    }
    LongestInIs(f.at.Keys, NS, tokens, matched);
  }
}
