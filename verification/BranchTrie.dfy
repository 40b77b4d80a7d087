/**
The simple thing the tree-keyed cache must agree with: a map from branch id to
the position the branch has reached, that is its namespace and its full token
sequence.  What is cached is the trie of all non-empty prefixes of live
sequences, one trie per namespace.
*/
module BranchTrie {
  import opened RadixForest

  type Branches = map<string, Pos>

  /** `p` is on the way from the root of its namespace to `q`. */
  predicate Above(p: Pos, q: Pos) {
    p.ns == q.ns && p.path <= q.path
  }

  lemma AboveSelf(p: Pos)
    ensures Above(p, p)
  {
  }

  /** The live branches whose sequence passes through `p`. */
  ghost function Holders(live: Branches, p: Pos): set<string> {
    set t | t in live && Above(p, live[t])
  }

  lemma HolderOf(live: Branches, t: string, p: Pos)
    requires t in live && Above(p, live[t])
    ensures t in Holders(live, p)
  {
  }

  ghost predicate IsCached(live: Branches, p: Pos) {
    p.path != [] && exists t :: t in live && Above(p, live[t])
  }

  /** All non-empty prefixes of `q`. */
  ghost function Prefixes(q: Pos): set<Pos> {
    Segment(q.ns, q.path, 0, |q.path|)
  }

  ghost function Cached(live: Branches): set<Pos> {
    set t, p | t in live && p in Prefixes(live[t]) :: p
  }

  lemma PrefixesAre(q: Pos, p: Pos)
    ensures p in Prefixes(q) <==> p.path != [] && Above(p, q)
  {
    if p.path != [] && Above(p, q) {
      assert p == Pos(q.ns, q.path[..|p.path|]);
    }
  }

  lemma CachedIs(live: Branches, p: Pos)
    ensures p in Cached(live) <==> IsCached(live, p)
    ensures p in Cached(live) <==> p.path != [] && Holders(live, p) != {}
  {
    if p in Cached(live) {
      var t :| t in live && p in Prefixes(live[t]);
      PrefixesAre(live[t], p);
      assert t in Holders(live, p);
    }
    if IsCached(live, p) {
      var t :| t in live && Above(p, live[t]);
      PrefixesAre(live[t], p);
    }
    if p.path != [] && Holders(live, p) != {} {
      var t :| t in Holders(live, p);
      PrefixesAre(live[t], p);
    }
  }

  /** Length of the longest prefix of `query` that is live in namespace `ns`. */
  ghost function Longest(live: Branches, ns: string, query: seq<Token>): (r: nat)
    ensures r <= |query|
    ensures 0 < r ==> Pos(ns, query[..r]) in Cached(live)
  {
    LongestIn(Cached(live), ns, query)
  }

  lemma LongestIs(live: Branches, ns: string, query: seq<Token>, r: nat)
    requires r <= |query|
    requires 0 < r ==> Pos(ns, query[..r]) in Cached(live)
    requires r < |query| ==> Pos(ns, query[..r + 1]) !in Cached(live)
    ensures Longest(live, ns, query) == r
  {
    forall p, i: nat | p in Cached(live) && 0 < i <= |p.path| ensures Pos(p.ns, p.path[..i]) in Cached(live) {
      CachedClosed(live, p, i);
    }
    LongestInIs(Cached(live), ns, query, r);
  }

  lemma CachedClosed(live: Branches, p: Pos, i: nat)
    requires p in Cached(live) && 0 < i <= |p.path|
    ensures Pos(p.ns, p.path[..i]) in Cached(live)
  {
    CachedIs(live, p);
    var t :| t in live && Above(p, live[t]);
    var q := Pos(p.ns, p.path[..i]);
    assert Above(q, live[t]);
    CachedIs(live, q);
  }

  /** A query along a live sequence is matched in full. */
  lemma LongestAlong(live: Branches, t: string, query: seq<Token>)
    requires t in live && query <= live[t].path
    ensures Longest(live, live[t].ns, query) == |query|
  {
    if query != [] {
      assert query[..|query|] == query;
      assert Above(Pos(live[t].ns, query), live[t]);
      CachedIs(live, Pos(live[t].ns, query));
    }
    LongestIs(live, live[t].ns, query, |query|);
  }

  /** The prefixes of `t`'s sequence that no other live branch shares. */
  ghost function Exclusive(live: Branches, t: string): set<Pos>
    requires t in live
  {
    set p | p in Prefixes(live[t]) && Holders(live, p) == {t}
  }

  /** Exactly the exclusive prefixes disappear with a branch. */
  lemma CachedWithout(live: Branches, t: string)
    requires t in live
    ensures Cached(live - {t}) == Cached(live) - Exclusive(live, t)
    ensures Exclusive(live, t) <= Cached(live)
    ensures |Exclusive(live, t)| == |Cached(live)| - |Cached(live - {t})|
  {
    var rest := live - {t};
    forall p ensures p in Cached(rest) <==> p in Cached(live) && p !in Exclusive(live, t) {
      CachedIs(live, p);
      CachedIs(rest, p);
      PrefixesAre(live[t], p);
      assert Holders(rest, p) == Holders(live, p) - {t};
      if p in Cached(live) && p !in Cached(rest) {
        assert Holders(live, p) == {t};
        assert t in Holders(live, p);
      }
    }
    forall p | p in Exclusive(live, t) ensures p in Cached(live) { CachedIs(live, p); }
    assert Cached(live) == Cached(rest) + Exclusive(live, t);
  }

  /** A kill changes the answer to a query exactly if the matched prefix was the victim's alone. */
  lemma KillMatches(live: Branches, t: string, ns: string, query: seq<Token>)
    requires t in live
    ensures var r := Longest(live, ns, query);
            Longest(live - {t}, ns, query) == r <==> r == 0 || Pos(ns, query[..r]) !in Exclusive(live, t)
  {
    var r := Longest(live, ns, query);
    CachedWithout(live, t);
    if r < |query| { LongestInMax(Cached(live), ns, query, r + 1); }
    if r == 0 || Pos(ns, query[..r]) !in Exclusive(live, t) {
      LongestIs(live - {t}, ns, query, r);
    }
  }

  /** Moving or adding one branch adds the prefixes of its new position. */
  lemma CachedWith(live: Branches, t: string, q: Pos)
    requires t in live ==> Above(live[t], q)
    ensures Cached(live[t := q]) == Cached(live) + Prefixes(q)
  {
    var now := live[t := q];
    forall p ensures p in Cached(now) <==> p in Cached(live) || p in Prefixes(q) {
      CachedIs(live, p);
      CachedIs(now, p);
      PrefixesAre(q, p);
      if p in Cached(live) {
        var s :| s in live && Above(p, live[s]);
        assert s in now && Above(p, now[s]);
      }
      if p in Prefixes(q) { assert t in now && Above(p, now[t]); }
    }
  }

  /** The holders of a position when one branch moves down or appears. */
  lemma HoldersWith(live: Branches, t: string, q: Pos, p: Pos)
    requires t in live ==> Above(live[t], q)
    ensures Holders(live[t := q], p) == Holders(live, p) + (if Above(p, q) then {t} else {})
  {
  }

  /** Deeper positions have fewer holders. */
  lemma HoldersShrink(live: Branches, p: Pos, q: Pos)
    requires Above(p, q)
    ensures Holders(live, q) <= Holders(live, p)
  {
  }

  /******* Totals *******/

  /** Sum of the lengths of all live sequences. */
  ghost function Logical(live: Branches): nat
    decreases |live|
  {
    if live == map[] then 0
    else
      var t :| t in live;
      assert |live - {t}| < |live| by { assert (live - {t}).Keys == live.Keys - {t}; }
      |live[t].path| + Logical(live - {t})
  }

  lemma {:induction false} LogicalRemove(live: Branches, t: string)
    requires t in live
    ensures Logical(live) == |live[t].path| + Logical(live - {t})
    decreases |live|
  {
    var s :| s in live && Logical(live) == |live[s].path| + Logical(live - {s});
    if s != t {
      assert (live - {s}).Keys == live.Keys - {s};
      assert (live - {t}).Keys == live.Keys - {t};
      LogicalRemove(live - {s}, t);
      LogicalRemove(live - {t}, s);
      assert live - {s} - {t} == live - {t} - {s};
    }
  }

  lemma LogicalWith(live: Branches, t: string, q: Pos)
    ensures Logical(live[t := q]) == |q.path| + Logical(live - {t})
  {
    LogicalRemove(live[t := q], t);
    assert live[t := q] - {t} == live - {t};
  }

  /** Sharing never costs: what is cached is at most the sum of the sequences. */
  lemma {:induction false} CachedAtMostLogical(live: Branches)
    ensures |Cached(live)| <= Logical(live)
    decreases |live|
  {
    if live == map[] {
      assert Cached(live) == {};
    } else {
      var t :| t in live;
      var rest := live - {t};
      assert rest.Keys == live.Keys - {t};
      CachedAtMostLogical(rest);
      LogicalRemove(live, t);
      CachedWithout(live, t);
      SegmentSize(live[t].ns, live[t].path, 0, |live[t].path|);
      SubsetSize(Exclusive(live, t), Prefixes(live[t]));
    }
  }

  lemma {:induction false} SubsetSize<T>(a: set<T>, b: set<T>)
    requires a <= b
    ensures |a| <= |b|
  {
    if a != {} {
      var x :| x in a;
      SubsetSize(a - {x}, b - {x});
    }
  }
}
