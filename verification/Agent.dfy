/**
`TreeAgent` of `agentfork/harness/agent.py` on the token path: the ledger of
committed prefixes over the orchestrator and the tree-keyed cache.
*/
module Agent {
  import opened Common
  import opened Protocol
  import opened RadixForest
  import opened BranchTrie
  import opened Orchestrator
  import opened TreeCache
  import opened Rounds
  import PinnedWalks

  /** `error` is set when the commit, the work or the scoring raised. */
  datatype BranchResult = BranchResult(id: Id, prefix: seq<Token>, score: real, error: bool)

  /** The child ids of a round are usable: as many as continuations, distinct and unused. */
  predicate IdsUsable(round: Round, mem: map<Id, Record>) {
    round.childIds.Some? ==>
      var ids := round.childIds.value;
      && |ids| == |round.continuations|
      && (forall i, j | 0 <= i < j < |ids| :: ids[i] != ids[j]) && (forall x | x in ids :: x !in mem)
  }

  /** Every tracked branch is cached with exactly its ledger entry. */
  ghost predicate Ledger(prefix: map<Id, seq<Token>>, live: Branches) {
    forall x | x in prefix :: x in live && live[x].path == prefix[x]
  }

  /** What is left of that if killing the losers failed half-way. */
  ghost predicate LedgerOfLiving(prefix: map<Id, seq<Token>>, live: Branches) {
    forall x | x in prefix && x in live :: live[x].path == prefix[x]
  }

  /** `select_winner`: the first of the best among the candidates without error. */
  predicate Wins(results: seq<BranchResult>, w: nat) {
    && w < |results| && !results[w].error
    && (forall j | 0 <= j < |results| && !results[j].error :: results[j].score <= results[w].score)
    && (forall j | 0 <= j < w && !results[j].error :: results[j].score < results[w].score)
  }

  method SelectWinner(results: seq<BranchResult>) returns (r: Outcome<nat>)
    ensures r.Ok? ==> Wins(results, r.value)
    ensures !r.Ok? ==> r == RuntimeError && forall j | 0 <= j < |results| :: results[j].error
  {
    var best := None;
    for i := 0 to |results|
      invariant best.Some? ==> 0 <= best.value < i && Wins(results[..i], best.value)
      invariant best.None? ==> forall j | 0 <= j < i :: results[j].error
    {
      if !results[i].error && (best.None? || results[best.value].score < results[i].score) {
        best := Some(i);
      }
    }
    assert results[..|results|] == results;
    r := if best.Some? then Ok(best.value) else RuntimeError;
  }

  /******* The winners' line *******/

  /** `line` is a root followed by one winner per round, each a live child of the one
      before with a longer sequence. */
  ghost predicate Lineage(mem: map<Id, Record>, live: Branches, line: seq<Id>) {
    && line != []
    && (forall i | 0 <= i < |line| :: line[i] in mem && mem[line[i]].phase == Live && line[i] in live && live[line[i]].ns == line[0])
    && mem[line[0]].parent == None
    && (forall i | 0 < i < |line| :: mem[line[i]].parent == Some(line[i - 1]) && live[line[i - 1]].path < live[line[i]].path)
  }

  lemma {:induction false} LineageAscends(mem: map<Id, Record>, live: Branches, line: seq<Id>, k: nat)
    requires Lineage(mem, live, line)
    ensures Ascend(mem, line[|line| - 1], k) == if k < |line| then Some(line[|line| - 1 - k]) else None
  {
    if k > 0 { LineageAscends(mem, live, line, k - 1); }
  }

  /** The losers are exactly the branches outside the line. */
  lemma LineageLosers(mem: map<Id, Record>, live: Branches, line: seq<Id>)
    requires Lineage(mem, live, line)
    ensures Losers(mem, line[|line| - 1]) == mem.Keys - Elements(line)
  {
    var w := line[|line| - 1];
    forall x | x in mem ensures InLine(mem, w, x) <==> x in line {
      if k: nat :| Ascend(mem, w, k) == Some(x) { LineageAscends(mem, live, line, k); }
      if i :| 0 <= i < |line| && line[i] == x {
        LineageAscends(mem, live, line, |line| - 1 - i);
        assert Ascend(mem, w, |line| - 1 - i) == Some(x);
      }
    }
  }

  lemma {:induction false} LineageNested(mem: map<Id, Record>, live: Branches, line: seq<Id>, i: nat)
    requires Lineage(mem, live, line) && i < |line|
    ensures live[line[i]].path <= live[line[|line| - 1]].path
    decreases |line| - i
  {
    if i + 1 < |line| {
      LineageNested(mem, live, line, i + 1);
      assert live[line[i]].path < live[line[i + 1]].path;
    }
  }

  lemma {:induction false} LineageLonger(mem: map<Id, Record>, live: Branches, line: seq<Id>, i: nat, j: nat)
    requires Lineage(mem, live, line) && i < j < |line|
    ensures |live[line[i]].path| < |live[line[j]].path|
    decreases j
  {
    assert live[line[j - 1]].path < live[line[j]].path;
    if i < j - 1 { LineageLonger(mem, live, line, i, j - 1); }
  }

  /** Growing sequences keep the branches of a line apart. */
  lemma LineageDistinct(mem: map<Id, Record>, live: Branches, line: seq<Id>)
    requires Lineage(mem, live, line)
    ensures Distinct(line) && |Elements(line)| == |line|
  {
    forall i, j | 0 <= i < j < |line| ensures line[i] != line[j] { LineageLonger(mem, live, line, i, j); }
    DistinctSize(line);
  }

  lemma {:induction false} DistinctSize(ids: seq<Id>)
    requires Distinct(ids)
    ensures |Elements(ids)| == |ids|
    decreases |ids|
  {
    if ids == [] {
      assert Elements(ids) == {};
    } else {
      var n := |ids| - 1;
      DistinctSize(ids[..n]);
      ElementsStep(ids, n);
      assert ids[..n + 1] == ids && ids[n] !in Elements(ids[..n]);
    }
  }

  /** With nothing else alive, what is cached is the last winner's sequence. */
  lemma LineageCached(mem: map<Id, Record>, live: Branches, line: seq<Id>)
    requires Lineage(mem, live, line) && live.Keys == Elements(line)
    ensures Cached(live) == Prefixes(live[line[|line| - 1]]) && live[line[|line| - 1]].ns == line[0]
  {
    var last := live[line[|line| - 1]];
    forall p ensures p in Cached(live) <==> p in Prefixes(last) {
      CachedIs(live, p);
      PrefixesAre(last, p);
      if p in Cached(live) {
        var t :| t in live && Above(p, live[t]);
        var i :| 0 <= i < |line| && line[i] == t;
        LineageNested(mem, live, line, i);
      }
      if p in Prefixes(last) { assert line[|line| - 1] in live; }
    }
  }

  lemma LineageResident(mem: map<Id, Record>, live: Branches, line: seq<Id>)
    requires Lineage(mem, live, line) && live.Keys == Elements(line)
    ensures |Cached(live)| == |live[line[|line| - 1]].path|
  {
    LineageCached(mem, live, line);
    var last := live[line[|line| - 1]];
    SegmentSize(last.ns, last.path, 0, |last.path|);
  }

  /** What each candidate gets: its own branch at the parent's position, moved to its
      continuation if it was committed, and an error exactly if it was not or its verdict is one. */
  ghost predicate Candidate(b: Branches, r: BranchResult, at: Pos, round: Round, i: nat, committed: bool)
    requires WellFormed(round) && i < |round.continuations|
  {
    && r.prefix == Unit(round.continuations[i])
    && r.id in b && b[r.id] == (if committed then Pos(at.ns, r.prefix) else at)
    && (r.error <==> !committed || round.verdicts[i].None?)
    && (!r.error ==> round.verdicts[i] == Some(r.score))
  }

  function Ids(results: seq<BranchResult>): seq<Id> {
    seq(|results|, i requires 0 <= i < |results| => results[i].id)
  }

  /** One live child per continuation; nothing else moved, in registry, cache or ledger. */
  ghost predicate FannedOut(s: State, t: State, a: Branches, b: Branches, p: map<Id, seq<Token>>, q: map<Id, seq<Token>>,
                            parent: Id, g: Stage, round: Round, results: seq<BranchResult>)
    requires WellFormed(round)
  {
    var ids := Elements(Ids(results));
    && |results| == |round.continuations| && Distinct(Ids(results)) && ids !! s.mem.Keys
    && t.mem.Keys == s.mem.Keys + ids && (forall x | x in s.mem :: t.mem[x] == s.mem[x])
    && (forall i | 0 <= i < |results| :: results[i].id in t.mem && t.mem[results[i].id].parent == Some(parent) && t.mem[results[i].id].phase == Live)
    && b.Keys == a.Keys + ids && (forall x | x in a :: b[x] == a[x])
    && q.Keys == p.Keys + ids
    && (round.childIds.Some? ==> Ids(results) == round.childIds.value)
    && (results != [] ==> parent in a && a[parent].ns == g.ns)
    && (forall i | 0 <= i < |results| :: Candidate(b, results[i], a[parent], round, i, Commits(g, round, i)))
    && t.life == s.life
  }

  lemma CandidateKept(b: Branches, c: Branches, r: BranchResult, at: Pos, round: Round, i: nat, committed: bool)
    requires WellFormed(round) && i < |round.continuations| && Candidate(b, r, at, round, i, committed)
    requires r.id in b ==> r.id in c && c[r.id] == b[r.id]
    ensures Candidate(c, r, at, round, i, committed)
  {
  }

  /** The ledger is untouched by a fork, whatever came of it. */
  lemma LedgerForked(p: map<Id, seq<Token>>, s: State, t: State, a: Branches, b: Branches, parent: Id)
    requires Ledger(p, a) && exists ids :: ForkFrame(s, t, a, b, parent, ids)
    ensures Ledger(p, b) && t.life == s.life
  {
  }

  lemma ForkedChild(s: State, t: State, a: Branches, b: Branches, parent: Id, lease: Option<int>, ids: set<Id>, x: Id)
    requires ForkFrame(s, t, a, b, parent, ids) && Forked(t, b, parent, lease, ids)
    requires ids !! s.mem.Keys && parent in s.mem && x in ids
    ensures x in t.mem && t.mem[x].parent == Some(parent) && t.mem[x].phase == Live
    ensures x in b && parent in a && b[x] == a[parent]
  {
    assert parent in b && parent !in ids;
    assert b[parent] == a[parent];
  }

  /** After a successful fork each child is at the parent's position. */
  lemma ForkedAt(s: State, t: State, a: Branches, b: Branches, parent: Id, lease: Option<int>, ids: seq<Id>)
    requires ForkFrame(s, t, a, b, parent, Elements(ids)) && Forked(t, b, parent, lease, Elements(ids))
    requires Elements(ids) !! s.mem.Keys && parent in s.mem
    ensures b.Keys == a.Keys + Elements(ids) && (forall x | x in a :: b[x] == a[x])
    ensures t.mem.Keys == s.mem.Keys + Elements(ids) && (forall x | x in s.mem :: t.mem[x] == s.mem[x]) && t.life == s.life
    ensures forall i | 0 <= i < |ids| :: ids[i] in t.mem && t.mem[ids[i]].parent == Some(parent) && t.mem[ids[i]].phase == Live
    ensures ids != [] ==> parent in a
    ensures parent in a ==> forall i | 0 <= i < |ids| :: ids[i] in b && b[ids[i]] == a[parent]
  {
    if ids != [] { ForkedChild(s, t, a, b, parent, lease, Elements(ids), ids[0]); }
    forall i | parent in a && 0 <= i < |ids| ensures ids[i] in b && b[ids[i]] == a[parent] {
      ForkedChild(s, t, a, b, parent, lease, Elements(ids), ids[i]);
    }
    forall i | 0 <= i < |ids| ensures ids[i] in t.mem && t.mem[ids[i]].parent == Some(parent) && t.mem[ids[i]].phase == Live {
      ForkedChild(s, t, a, b, parent, lease, Elements(ids), ids[i]);
    }
  }

  /** A fork caches nothing new: the children stand where the parent stands. */
  lemma ForkedCached(a: Branches, b: Branches, parent: Id, ids: set<Id>)
    requires b.Keys == a.Keys + ids && (forall x | x in a :: b[x] == a[x]) && (forall x | x in ids :: parent in a && b[x] == a[parent])
    ensures Cached(b) == Cached(a)
  {
    forall p ensures p in Cached(b) <==> p in Cached(a) {
      CachedIs(a, p);
      CachedIs(b, p);
      if p in Cached(b) {
        var t :| t in b && Above(p, b[t]);
        assert if t in a then Above(p, a[t]) else Above(p, a[parent]);
      }
      if p in Cached(a) {
        var t :| t in a && Above(p, a[t]);
        assert t in b && Above(p, b[t]);
      }
    }
  }

  /** How far the candidates have been committed. */
  ghost predicate CommittedTo(b: Branches, c: Branches, at: Pos, ids: seq<Id>, g: Stage, round: Round, results: seq<BranchResult>)
    requires WellFormed(round) && |ids| == |round.continuations|
  {
    && |results| <= |ids| && c.Keys == b.Keys && (forall x | x in b && x !in ids :: c[x] == b[x])
    && (forall j | 0 <= j < |results| :: results[j].id == ids[j] && Candidate(c, results[j], at, round, j, Commits(g, round, j)))
    && (forall j | |results| <= j < |ids| :: ids[j] in c && c[ids[j]] == at)
    && Cached(c) == AfterCommits(g, round, |results|)
  }

  lemma CommittedNone(b: Branches, at: Pos, ids: seq<Id>, g: Stage, round: Round)
    requires WellFormed(round) && |ids| == |round.continuations| && forall i | 0 <= i < |ids| :: ids[i] in b && b[ids[i]] == at
    requires g.cached == Cached(b)
    ensures CommittedTo(b, b, at, ids, g, round, [])
  {
  }

  lemma NextUncommitted(b: Branches, c: Branches, at: Pos, ids: seq<Id>, g: Stage, round: Round, results: seq<BranchResult>)
    requires WellFormed(round) && |ids| == |round.continuations| && |results| < |ids|
    requires CommittedTo(b, c, at, ids, g, round, results)
    ensures ids[|results|] in c && c[ids[|results|]] == at && ids[|results|] in Elements(ids)
    ensures Cached(c) == AfterCommits(g, round, |results|)
  {
  }

  /** Committing one more candidate if there is room for it. */
  lemma CommittedMore(b: Branches, c: Branches, d: Branches, at: Pos, ids: seq<Id>, g: Stage, round: Round, results: seq<BranchResult>,
                      r: BranchResult, ok: bool)
    requires WellFormed(round) && |ids| == |round.continuations| && Distinct(ids)
    requires CommittedTo(b, c, at, ids, g, round, results) && |results| < |ids| && g.ns == at.ns
    requires r.id == ids[|results|] && r.prefix == Unit(round.continuations[|results|]) && at.path <= r.prefix
    requires ok <==> Admits(Cached(c), Pos(at.ns, r.prefix), g.capacity, g.budget)
    requires d == if ok then c[r.id := Pos(at.ns, r.prefix)] else c
    requires r.error <==> !ok || round.verdicts[|results|].None?
    requires !r.error ==> round.verdicts[|results|] == Some(r.score)
    ensures CommittedTo(b, d, at, ids, g, round, results + [r])
  {
    hide Candidate, AfterCommits, Commits, Admits, Cached;
    CommittedNow(b, c, d, at, ids, g, round, results, r, ok);
    forall j | 0 <= j < |results| ensures Candidate(d, results[j], at, round, j, Commits(g, round, j)) {
      CandidateKept(c, d, results[j], at, round, j, Commits(g, round, j));
    }
  }

  lemma CommittedNow(b: Branches, c: Branches, d: Branches, at: Pos, ids: seq<Id>, g: Stage, round: Round, results: seq<BranchResult>,
                     r: BranchResult, ok: bool)
    requires WellFormed(round) && |ids| == |round.continuations| && Distinct(ids)
    requires CommittedTo(b, c, at, ids, g, round, results) && |results| < |ids| && g.ns == at.ns
    requires r.id == ids[|results|] && r.prefix == Unit(round.continuations[|results|]) && at.path <= r.prefix
    requires ok <==> Admits(Cached(c), Pos(at.ns, r.prefix), g.capacity, g.budget)
    requires d == if ok then c[r.id := Pos(at.ns, r.prefix)] else c
    requires r.error <==> !ok || round.verdicts[|results|].None?
    requires !r.error ==> round.verdicts[|results|] == Some(r.score)
    ensures Candidate(d, r, at, round, |results|, Commits(g, round, |results|))
    ensures Cached(d) == AfterCommits(g, round, |results| + 1)
  {
    hide Admits, Cached, Prefixes;
    assert ids[|results|] in c;
    if ok { CachedWith(c, r.id, Pos(at.ns, r.prefix)); }
  }

  /** All committed: the children are exactly one per continuation. */
  lemma CommittedAll(s: State, t: State, a: Branches, b: Branches, c: Branches, p: map<Id, seq<Token>>, q: map<Id, seq<Token>>,
                     parent: Id, ids: seq<Id>, g: Stage, round: Round, results: seq<BranchResult>)
    requires WellFormed(round) && |ids| == |round.continuations| && Distinct(ids) && Elements(ids) !! s.mem.Keys
    requires parent in a && a[parent].ns == g.ns && CommittedTo(b, c, a[parent], ids, g, round, results) && |results| == |ids|
    requires b.Keys == a.Keys + Elements(ids) && (forall x | x in a :: b[x] == a[x]) && a.Keys <= s.mem.Keys
    requires t.mem.Keys == s.mem.Keys + Elements(ids) && (forall x | x in s.mem :: t.mem[x] == s.mem[x]) && t.life == s.life
    requires forall i | 0 <= i < |ids| :: ids[i] in t.mem && t.mem[ids[i]].parent == Some(parent) && t.mem[ids[i]].phase == Live
    requires q.Keys == p.Keys + Elements(ids) && (round.childIds.Some? ==> ids == round.childIds.value)
    ensures FannedOut(s, t, a, c, p, q, parent, g, round, results)
    ensures forall i | 0 <= i < |results| :: results[i].prefix == Unit(round.continuations[i])
  {
    hide Commits;
    assert Ids(results) == ids;
    assert forall i | 0 <= i < |ids| :: ids[i] in Elements(ids);
    assert forall x | x in a :: x !in Elements(ids);
  }

  /** The candidate selected from the results is the one the round has to keep. */
  lemma SelectedWins(s: State, t: State, a: Branches, b: Branches, p: map<Id, seq<Token>>, q: map<Id, seq<Token>>,
                     parent: Id, g: Stage, round: Round, results: seq<BranchResult>, w: nat)
    requires WellFormed(round) && FannedOut(s, t, a, b, p, q, parent, g, round, results) && Wins(results, w)
    ensures WinsRound(g, round, w) && results[w].prefix == Unit(round.continuations[w]) && round.verdicts[w] == Some(results[w].score)
    ensures round.childIds.Some? ==> w < |round.childIds.value| && results[w].id == round.childIds.value[w]
  {
    hide Commits;
    forall j: nat | j < |round.continuations| ensures results[j].error <==> !Finishes(g, round, j) {
      assert Candidate(b, results[j], a[parent], round, j, Commits(g, round, j));
    }
    forall j: nat | j < |round.continuations| && Finishes(g, round, j) ensures round.verdicts[j] == Some(results[j].score) {
      assert Candidate(b, results[j], a[parent], round, j, Commits(g, round, j));
    }
    assert Ids(results)[w] == results[w].id;
  }

  /** If every candidate failed there is none to keep. */
  lemma NoneWins(s: State, t: State, a: Branches, b: Branches, p: map<Id, seq<Token>>, q: map<Id, seq<Token>>,
                 parent: Id, g: Stage, round: Round, results: seq<BranchResult>)
    requires WellFormed(round) && FannedOut(s, t, a, b, p, q, parent, g, round, results)
    requires forall j | 0 <= j < |results| :: results[j].error
    ensures forall w: nat :: !WinsRound(g, round, w)
  {
    hide Commits;
    forall w: nat ensures !WinsRound(g, round, w) {
      if w < |round.continuations| { assert Candidate(b, results[w], a[parent], round, w, Commits(g, round, w)); }
    }
  }

  function ReapedIds(receipts: seq<Receipt>): set<Id> {
    set i | 0 <= i < |receipts| && receipts[i].reaped :: receipts[i].id
  }

  lemma ReapedStep(receipts: seq<Receipt>, i: nat)
    requires i < |receipts|
    ensures ReapedIds(receipts[..i + 1]) == ReapedIds(receipts[..i]) + (if receipts[i].reaped then {receipts[i].id} else {})
  {
    var a, b := receipts[..i], receipts[..i + 1];
    assert b == a + [receipts[i]];
    forall x | x in ReapedIds(a) ensures x in ReapedIds(b) {
      var j :| 0 <= j < i && a[j].reaped && a[j].id == x;
      assert b[j] == a[j];
    }
    if receipts[i].reaped { assert b[i].reaped && b[i].id in ReapedIds(b); }
  }

  lemma CoversReaped(receipts: seq<Receipt>, ids: set<Id>)
    requires OneReceiptEach(receipts, ids)
    ensures ReapedIds(receipts) == ids
  {
    forall x | x in ids ensures x in ReapedIds(receipts) {
      var i :| 0 <= i < |receipts| && receipts[i].id == x;
      assert receipts[i].reaped;
    }
  }

  /** The winner of a round extends the line. */
  lemma LineageGrows(s: State, t: State, a: Branches, b: Branches, p: map<Id, seq<Token>>, q: map<Id, seq<Token>>,
                     line: seq<Id>, g: Stage, round: Round, results: seq<BranchResult>, w: nat)
    requires Lineage(s.mem, a, line) && WellFormed(round) && Wins(results, w)
    requires FannedOut(s, t, a, b, p, q, line[|line| - 1], g, round, results)
    requires a[line[|line| - 1]].path < results[w].prefix
    ensures Lineage(t.mem, b, line + [results[w].id])
    ensures results[w].id in b && b[results[w].id].path == results[w].prefix
    ensures results[w].id in q && p.Keys <= q.Keys && forall x | x in line :: x in a && x in b && b[x] == a[x]
  {
    hide Candidate, Wins;
    var last := line[|line| - 1];
    WinnerAt(b, results, a[last], g, round, w);
    var x := results[w].id;
    assert Ids(results)[w] == x;
    assert x in Elements(Ids(results));
    forall i | 0 <= i < |line| ensures t.mem[line[i]] == s.mem[line[i]] && b[line[i]] == a[line[i]] { }
    hide FannedOut;
    LineageMore(s.mem, t.mem, a, b, line, x);
  }

  lemma WinnerAt(b: Branches, results: seq<BranchResult>, at: Pos, g: Stage, round: Round, w: nat)
    requires WellFormed(round) && |results| == |round.continuations| && Wins(results, w)
    requires forall i | 0 <= i < |results| :: Candidate(b, results[i], at, round, i, Commits(g, round, i))
    ensures w < |results| && results[w].id in b && b[results[w].id] == Pos(at.ns, results[w].prefix)
  {
    assert Candidate(b, results[w], at, round, w, Commits(g, round, w));
  }

  lemma LineageMore(mem: map<Id, Record>, more: map<Id, Record>, a: Branches, b: Branches, line: seq<Id>, x: Id)
    requires Lineage(mem, a, line)
    requires forall i | 0 <= i < |line| :: line[i] in more && more[line[i]] == mem[line[i]] && line[i] in b && b[line[i]] == a[line[i]]
    requires x in more && more[x].phase == Live && more[x].parent == Some(line[|line| - 1])
    requires x in b && b[x].ns == line[0] && a[line[|line| - 1]].path < b[x].path
    ensures Lineage(more, b, line + [x])
  {
  }

  /** Killing the losers leaves exactly the line. */
  lemma LineageKept(t: State, u: State, b: Branches, c: Branches, q: map<Id, seq<Token>>, line: seq<Id>)
    requires Lineage(t.mem, b, line) && b.Keys <= t.mem.Keys && Ledger(q, b) && Elements(line) <= q.Keys
    requires Gone(t, u, b, c, Losers(t.mem, line[|line| - 1]))
    ensures OnlyLine(u.mem, c, q - Losers(t.mem, line[|line| - 1]), line)
    ensures forall x | x in line :: x in b && x in c && c[x] == b[x]
  {
    hide Lineage, Losers;
    LineageLosers(t.mem, b, line);
    LineageHas(t.mem, b, line);
    KeysLeft(t.mem, u.mem, b, c, q, line, Losers(t.mem, line[|line| - 1]));
    LineageLeft(t.mem, u.mem, b, c, line);
  }

  lemma LineageHas(mem: map<Id, Record>, b: Branches, line: seq<Id>)
    requires Lineage(mem, b, line)
    ensures line != [] && forall x | x in line :: x in mem && x in b
  {
  }

  /** With everything else gone, the line is all there is. */
  lemma KeysLeft(mem: map<Id, Record>, less: map<Id, Record>, b: Branches, c: Branches, q: map<Id, seq<Token>>, line: seq<Id>, losers: set<Id>)
    requires losers == mem.Keys - Elements(line) && less == mem - losers && c == b - losers
    requires b.Keys <= mem.Keys && Ledger(q, b) && Elements(line) <= q.Keys && forall x | x in line :: x in mem && x in b
    ensures less.Keys == Elements(line) && c.Keys == Elements(line) && (q - losers).Keys == Elements(line) && Ledger(q - losers, c)
    ensures forall x | x in line :: x in less && less[x] == mem[x] && x in c && c[x] == b[x]
  {
    forall x | x in Elements(line) ensures x in line { }
    forall x | x in line ensures x in Elements(line) { }
  }

  lemma LineageLeft(mem: map<Id, Record>, less: map<Id, Record>, b: Branches, c: Branches, line: seq<Id>)
    requires Lineage(mem, b, line)
    requires forall i | 0 <= i < |line| :: line[i] in less && less[line[i]] == mem[line[i]] && line[i] in c && c[line[i]] == b[line[i]]
    ensures Lineage(less, c, line)
  {
  }

  /** The line is all there is: in the registry, in the cache and in the ledger. */
  ghost predicate OnlyLine(mem: map<Id, Record>, live: Branches, prefix: map<Id, seq<Token>>, line: seq<Id>) {
    && Lineage(mem, live, line) && Ledger(prefix, live)
    && mem.Keys == Elements(line) && live.Keys == Elements(line) && prefix.Keys == Elements(line)
  }

  lemma OnlyLineParts(mem: map<Id, Record>, live: Branches, prefix: map<Id, seq<Token>>, line: seq<Id>)
    requires OnlyLine(mem, live, prefix, line)
    ensures Lineage(mem, live, line) && line != [] && Elements(line) == prefix.Keys && live.Keys == Elements(line)
    ensures line[|line| - 1] in prefix && mem.Keys == Elements(line)
  {
    assert line[|line| - 1] in Elements(line);
  }

  /** Where the cache did not move, neither did the ledger. */
  lemma LedgerKept(p: map<Id, seq<Token>>, a: Branches, b: Branches, q: map<Id, seq<Token>>, c: Branches, line: seq<Id>, x: Id)
    requires Ledger(p, a) && Ledger(q, c) && Elements(line) <= p.Keys && x in line
    requires x in b && x in a && b[x] == a[x] && x in c && c[x] == b[x] && x in q
    ensures x in p && q[x] == p[x]
  {
    assert x in Elements(line);
  }

  /** A line starts with a live root. */
  lemma RootLine(mem: map<Id, Record>, live: Branches, root: Id)
    requires root in mem && mem[root].phase == Live && mem[root].parent == None && root in live && live[root].ns == root
    ensures Lineage(mem, live, [root])
  {
  }

  lemma RootCommitted(mem: map<Id, Record>, a: Branches, b: Branches, c: Branches, root: Id, context: seq<Token>)
    requires root in mem && mem[root].phase == Live && mem[root].parent == None
    requires b == a[root := Pos(root, [])] && c == b[root := Pos(root, context)] && Cached(b) == Cached(a)
    ensures Lineage(mem, c, [root]) && c == a[root := Pos(root, context)] && Cached(c) == Cached(a) + Prefixes(Pos(root, context))
  {
    RootLine(mem, c, root);
    CachedWith(b, root, Pos(root, context));
  }

  /** The end of the line can be forked: it is live, tracked and in the root's namespace. */
  lemma LineParent(mem: map<Id, Record>, live: Branches, prefix: map<Id, seq<Token>>, line: seq<Id>)
    requires Lineage(mem, live, line) && Elements(line) <= prefix.Keys
    ensures line != [] && var p := line[|line| - 1]; p in mem && mem[p].phase == Live && p in live && live[p].ns == line[0] && p in prefix
  {
    assert line[|line| - 1] in Elements(line);
  }

  lemma LastLive(s: State, live: Branches, line: seq<Id>)
    requires Lineage(s.mem, live, line)
    ensures LiveRecord(s, line[|line| - 1])
  {
  }

  /******* One winner per round *******/

  ghost function First(cached: set<Pos>, root: Id, context: seq<Token>, capacity: nat, budget: Option<nat>): Stage {
    Stage(cached + Prefixes(Pos(root, context)), root, capacity, budget)
  }

  lemma FirstStage(a: Branches, b: Branches, root: Id, context: seq<Token>, capacity: nat, budget: Option<nat>)
    requires Cached(b) == Cached(a) + Prefixes(Pos(root, context))
    ensures First(Cached(a), root, context, capacity, budget) == Stage(Cached(b), root, capacity, budget)
  {
  }

  /** Where round `k` begins, the winners before it being `ws`. */
  ghost function StageAt(g: Stage, rounds: seq<Round>, ws: seq<nat>, k: nat): Stage
    requires k <= |ws| <= |rounds|
  {
    if k > 0 && ws[k - 1] < |rounds[k - 1].continuations| then NextStage(g, rounds[k - 1], ws[k - 1]) else g
  }

  /** Round `k` kept the candidate it has to keep, and that is the next branch of the line. */
  ghost predicate KeptAt(g: Stage, rounds: seq<Round>, ws: seq<nat>, prefix: map<Id, seq<Token>>, line: seq<Id>, k: nat)
    requires k < |ws| <= |rounds| && |line| == |ws| + 1
  {
    && WellFormed(rounds[k]) && ws[k] < |rounds[k].continuations| && WinsRound(StageAt(g, rounds, ws, k), rounds[k], ws[k])
    && line[k + 1] in prefix && prefix[line[k + 1]] == Unit(rounds[k].continuations[ws[k]])
    && (rounds[k].childIds.Some? ==> ws[k] < |rounds[k].childIds.value| && line[k + 1] == rounds[k].childIds.value[ws[k]])
  }

  /** As many rounds as `ws` is long each kept their winner. */
  ghost predicate Kept(g: Stage, rounds: seq<Round>, ws: seq<nat>, prefix: map<Id, seq<Token>>, line: seq<Id>) {
    |ws| <= |rounds| && |line| == |ws| + 1 && forall k: nat | k < |ws| :: KeptAt(g, rounds, ws, prefix, line, k)
  }

  /** The caller names the children of every round, with names that are new, or of none. */
  ghost predicate NamesFree(taken: set<Id>, rounds: seq<Round>) {
    || (forall round | round in rounds :: round.childIds.None?)
    || (forall k: nat | k < |rounds| ::
          && rounds[k].childIds.Some? && Distinct(rounds[k].childIds.value)
          && |rounds[k].childIds.value| == |rounds[k].continuations|
          && forall x | x in rounds[k].childIds.value :: !NamedBefore(x, taken, rounds, k))
  }

  /** `x` is taken or the name of a child of the first `k` rounds. */
  ghost predicate NamedBefore(x: Id, taken: set<Id>, rounds: seq<Round>, k: nat)
    requires k <= |rounds|
  {
    x in taken || exists j: nat :: j < k && rounds[j].childIds.Some? && x in rounds[j].childIds.value
  }

  /** What is on record before round `k`, if the caller names the children. */
  ghost predicate RecordedNames(mem: map<Id, Record>, taken: set<Id>, rounds: seq<Round>, k: nat)
    requires k <= |rounds|
  {
    forall x | x in mem :: (forall round | round in rounds :: round.childIds.None?) || NamedBefore(x, taken, rounds, k)
  }

  lemma NamesBegin(mem: map<Id, Record>, rounds: seq<Round>)
    ensures RecordedNames(mem, mem.Keys, rounds, 0)
  {
  }

  lemma NamesUsable(mem: map<Id, Record>, taken: set<Id>, rounds: seq<Round>, k: nat)
    requires k < |rounds| && NamesFree(taken, rounds) && RecordedNames(mem, taken, rounds, k)
    ensures IdsUsable(rounds[k], mem)
  {
    hide NamedBefore;
    assert rounds[k] in rounds;
  }

  lemma NamesNext(mem: map<Id, Record>, more: map<Id, Record>, taken: set<Id>, rounds: seq<Round>, k: nat, line: seq<Id>, w: nat, id: Id)
    requires k < |rounds| && NamesFree(taken, rounds) && RecordedNames(mem, taken, rounds, k)
    requires (forall x | x in line :: x in mem) && more.Keys == Elements(line + [id])
    requires rounds[k].childIds.Some? ==> w < |rounds[k].childIds.value| && id == rounds[k].childIds.value[w]
    ensures RecordedNames(more, taken, rounds, k + 1)
  {
    if !forall round | round in rounds :: round.childIds.None? {
      assert rounds[k].childIds.Some?;
      forall x | x in more ensures NamedBefore(x, taken, rounds, k + 1) {
        if x in line { assert NamedBefore(x, taken, rounds, k); } else { assert x == id; }
      }
    }
  }

  /** The score reported is the verdict on the winner. */
  predicate ScoredBy(round: Round, w: nat, score: real) {
    w < |round.verdicts| && round.verdicts[w] == Some(score)
  }

  lemma RoundsBegin(g: Stage, rounds: seq<Round>, prefix: map<Id, seq<Token>>, root: Id)
    requires root in prefix
    ensures Kept(g, rounds, [], prefix, [root]) && StageAt(g, rounds, [], 0) == g && Elements([root]) <= prefix.Keys
  {
  }

  lemma KeptMore(g: Stage, rounds: seq<Round>, ws: seq<nat>, p: map<Id, seq<Token>>, line: seq<Id>, q: map<Id, seq<Token>>, w: nat, id: Id)
    requires Kept(g, rounds, ws, p, line) && |ws| < |rounds| && WellFormed(rounds[|ws|])
    requires forall x | x in line :: x in p && x in q && q[x] == p[x]
    requires WinsRound(StageAt(g, rounds, ws, |ws|), rounds[|ws|], w)
    requires id in q && q[id] == Unit(rounds[|ws|].continuations[w])
    requires rounds[|ws|].childIds.Some? ==> w < |rounds[|ws|].childIds.value| && id == rounds[|ws|].childIds.value[w]
    ensures Kept(g, rounds, ws + [w], q, line + [id])
    ensures w < |rounds[|ws|].continuations| && StageAt(g, rounds, ws + [w], |ws| + 1) == NextStage(g, rounds[|ws|], w)
  {
    var us, more := ws + [w], line + [id];
    forall k: nat | k < |us| ensures KeptAt(g, rounds, us, q, more, k) {
      assert StageAt(g, rounds, us, k) == StageAt(g, rounds, ws, k);
      if k < |ws| {
        assert KeptAt(g, rounds, ws, p, line, k);
        assert more[k + 1] == line[k + 1] && line[k + 1] in line;
      }
    }
  }

  /** What is left of the rounds can still be solved once the first of them kept its winner. */
  lemma SolvableNext(g: Stage, base: seq<Token>, rounds: seq<Round>, w: nat)
    requires (forall round | round in rounds :: WellFormed(round)) && rounds != []
    requires Solvable(g, base, rounds) && WinsRound(g, rounds[0], w)
    ensures Solvable(NextStage(g, rounds[0], w), Unit(rounds[0].continuations[w]), rounds[1..])
  {
    var v: nat :| WinsRound(g, rounds[0], v) && Solvable(NextStage(g, rounds[0], v), Unit(rounds[0].continuations[v]), rounds[1..]);
    WinnerUnique(g, rounds[0], v, w);
  }

  /** A round that can be solved has a winner and only continuations that extend the base. */
  lemma SolvableNow(g: Stage, base: seq<Token>, rounds: seq<Round>)
    requires (forall round | round in rounds :: WellFormed(round)) && rounds != [] && Solvable(g, base, rounds)
    ensures AllExtend(base, rounds[0]) && exists w: nat :: WinsRound(g, rounds[0], w)
  {
  }

  /** After a round the cache is where the next one begins. */
  lemma LineStage(mem: map<Id, Record>, live: Branches, prefix: map<Id, seq<Token>>, line: seq<Id>, g: Stage, round: Round, w: nat)
    requires OnlyLine(mem, live, prefix, line) && line[0] == g.ns && w < |round.continuations|
    requires line[|line| - 1] in prefix && prefix[line[|line| - 1]] == Unit(round.continuations[w])
    ensures Stage(Cached(live), g.ns, g.capacity, g.budget) == NextStage(g, round, w)
  {
    LineageCached(mem, live, line);
  }

  class TreeAgent {
    const orch: ForkOrchestrator
    var prefix: map<Id, seq<Token>>

    ghost predicate Valid()
      reads this, orch, orch.kv
    {
      orch.Valid() && Ledger(prefix, orch.kv.live)
    }

    constructor (orch: ForkOrchestrator)
      requires orch.Valid()
      ensures Valid() && this.orch == orch && prefix == map[]
    {
      this.orch, prefix := orch, map[];
    }

    /** Where a round on branches of namespace `ns` begins. */
    ghost function Stage(ns: string): Stage
      reads this, orch.kv
    {
      Rounds.Stage.Stage(Cached(orch.kv.live), ns, orch.kv.capacity, orch.kv.budget)
    }

    /** `_commit`: charge the suffix and record it if there is room; otherwise both sides stay. */
    method Commit(id: Id, target: seq<Token>) returns (ok: bool)
      requires Valid() && id in prefix && prefix[id] <= target
      modifies this`prefix, orch.kv
      ensures Valid()
      ensures id in old(orch.kv.live)
      ensures ok <==> && orch.s.life.Open? && LiveRecord(orch.s, id)
                      && Admits(Cached(old(orch.kv.live)), Pos(old(orch.kv.live)[id].ns, target), orch.kv.capacity, orch.kv.budget)
      ensures ok ==> prefix == old(prefix)[id := target]
                     && orch.kv.live == old(orch.kv.live)[id := Pos(old(orch.kv.live)[id].ns, target)]
      ensures !ok ==> prefix == old(prefix) && orch.kv.live == old(orch.kv.live)
    {
      hide ForkOrchestrator.Valid, Admits, Cached;
      var base := prefix[id];
      assert base + target[|base|..] == target;
      var r := orch.Extend(id, target[|base|..]);
      ok := r.Ok?;
      if ok {
        prefix := prefix[id := target];
      }
    }

    /** `fan_out`: a bad continuation is refused before anything is forked, and a failing
        candidate does not disturb its siblings. */
    method FanOut(parent: Id, round: Round, now: int) returns (r: Outcome<seq<BranchResult>>)
      requires Valid() && WellFormed(round)
      modifies this`prefix, orch, orch.kv, orch.world
      ensures Valid() && orch.s.life == old(orch.s.life) && orch.world.raised >= old(orch.world.raised)
      ensures parent !in old(prefix) ==> r == KeyError && orch.s == old(orch.s) && orch.kv.live == old(orch.kv.live)
      ensures parent in old(prefix) && !AllExtend(old(prefix)[parent], round) ==>
                r == ValueError && orch.s == old(orch.s) && orch.kv.live == old(orch.kv.live)
      ensures !r.Ok? ==> prefix == old(prefix)
      ensures r.Ok? <==> && parent in old(prefix) && AllExtend(old(prefix)[parent], round) && old(orch.s.life).Open?
                         && LiveRecord(old(orch.s), parent) && IdsUsable(round, old(orch.s.mem)) && orch.world.raised == old(orch.world.raised)
      ensures r.Ok? ==> parent in old(orch.kv.live)
                        && FannedOut(old(orch.s), orch.s, old(orch.kv.live), orch.kv.live, old(prefix), prefix, parent,
                                     old(Stage(orch.kv.live[parent].ns)), round, r.value)
      ensures r.Ok? ==> forall i | 0 <= i < |r.value| :: old(prefix)[parent] < r.value[i].prefix
    {
      hide ForkOrchestrator.Valid, FannedOut, Candidate, Cached;
      if parent !in prefix {
        return KeyError;
      }
      var base := prefix[parent];
      var n := |round.continuations|;
      for i := 0 to n
        invariant forall j | 0 <= j < i :: base < Unit(round.continuations[j])
      {
        if !StrictlyExtends(base, Unit(round.continuations[i])) {
          return ValueError;
        }
      }
      orch.Recorded();
      ghost var live := orch.kv.live;
      var forked := orch.Fork(parent, n, round.childIds, None, now);
      if !forked.Ok? {
        LedgerForked(prefix, old(orch.s), orch.s, live, orch.kv.live, parent);
        return match forked case KeyError => KeyError case ValueError => ValueError case RuntimeError => RuntimeError case _ => BackendError;
      }
      var results := CommitEach(parent, forked.value, round, old(orch.s), live);
      r := Ok(results);
    }

    /** Enter the children in the ledger, then commit, work and score one by one. */
    method CommitEach(parent: Id, ids: seq<Id>, round: Round, ghost s: State, ghost live: Branches) returns (results: seq<BranchResult>)
      requires Valid() && WellFormed(round) && |ids| == |round.continuations| && Distinct(ids) && Elements(ids) !! s.mem.Keys
      requires parent in prefix && forall i | 0 <= i < |ids| :: prefix[parent] < Unit(round.continuations[i])
      requires Ledger(prefix, live) && live.Keys <= s.mem.Keys && parent in s.mem && orch.s.life.Open?
      requires ForkFrame(s, orch.s, live, orch.kv.live, parent, Elements(ids)) && (round.childIds.Some? ==> ids == round.childIds.value)
      requires exists lease :: Forked(orch.s, orch.kv.live, parent, lease, Elements(ids))
      modifies this`prefix, orch.kv
      ensures Valid()
      ensures FannedOut(s, orch.s, live, orch.kv.live, old(prefix), prefix, parent,
                        Rounds.Stage.Stage(Cached(live), live[parent].ns, orch.kv.capacity, orch.kv.budget), round, results)
      ensures |results| == |ids| && forall i | 0 <= i < |ids| :: results[i].prefix == Unit(round.continuations[i])
    {
      hide ForkOrchestrator.Valid, FannedOut, Candidate, CommittedTo, ForkFrame, Forked, Cached;
      ghost var lease :| Forked(orch.s, orch.kv.live, parent, lease, Elements(ids));
      ForkedAt(s, orch.s, live, orch.kv.live, parent, lease, ids);
      var base := prefix[parent];
      ghost var b, at := orch.kv.live, live[parent];
      ForkedCached(live, b, parent, Elements(ids));
      ghost var g := Rounds.Stage.Stage(Cached(live), at.ns, orch.kv.capacity, orch.kv.budget);
      prefix := prefix + map x | x in ids :: base;
      CommittedNone(b, at, ids, g, round);
      results := CommitLoop(ids, round, b, at, g);
      CommittedAll(s, orch.s, live, b, orch.kv.live, old(prefix), prefix, parent, ids, g, round, results);
    }

    method CommitLoop(ids: seq<Id>, round: Round, ghost b: Branches, ghost at: Pos, ghost g: Stage) returns (results: seq<BranchResult>)
      requires Valid() && WellFormed(round) && |ids| == |round.continuations| && Distinct(ids) && Elements(ids) <= prefix.Keys
      requires orch.s.life.Open? && forall i | 0 <= i < |ids| :: LiveRecord(orch.s, ids[i])
      requires forall i | 0 <= i < |ids| :: at.path < Unit(round.continuations[i])
      requires CommittedTo(b, orch.kv.live, at, ids, g, round, [])
      requires g.ns == at.ns && g.capacity == orch.kv.capacity && g.budget == orch.kv.budget
      modifies this`prefix, orch.kv
      ensures Valid() && prefix.Keys == old(prefix).Keys
      ensures |results| == |ids| && CommittedTo(b, orch.kv.live, at, ids, g, round, results)
    {
      hide ForkOrchestrator.Valid, Candidate, CommittedTo, Admits, Cached;
      results := [];
      while |results| < |ids|
        invariant Valid() && |results| <= |ids| && CommittedTo(b, orch.kv.live, at, ids, g, round, results)
        invariant prefix.Keys == old(prefix).Keys
      {
        var i := |results|;
        ghost var c := orch.kv.live;
        NextUncommitted(b, c, at, ids, g, round, results);
        var target := Unit(round.continuations[i]);
        var ok := Commit(ids[i], target);
        var result := if ok && round.verdicts[i].Some? then BranchResult(ids[i], target, round.verdicts[i].value, false)
                      else BranchResult(ids[i], target, 0.0, true);
        CommittedMore(b, c, orch.kv.live, at, ids, g, round, results, result, ok);
        results := results + [result];
      }
    }

    /** `kill_losers`: the ledger forgets exactly what was killed. */
    method KillLosers(winner: Id) returns (r: Outcome<seq<Receipt>>)
      requires Valid()
      modifies this`prefix, orch`s, orch`trace, orch`tried, orch.kv, orch.world
      ensures orch.Valid() && LedgerOfLiving(prefix, orch.kv.live) && orch.world.raised >= old(orch.world.raised)
      ensures !r.Ok? ==> prefix == old(prefix)
      ensures r.Ok? <==> old(orch.s.life).Open? && LiveRecord(old(orch.s), winner) && orch.world.raised == old(orch.world.raised)
      ensures r.Ok? ==>
                && Valid() && prefix == old(prefix) - Losers(old(orch.s.mem), winner)
                && Gone(old(orch.s), orch.s, old(orch.kv.live), orch.kv.live, Losers(old(orch.s.mem), winner))
                && OneReceiptEach(r.value, Losers(old(orch.s.mem), winner)) && orch.s.life == old(orch.s.life)
    {
      hide ForkOrchestrator.Valid, Losers, OneReceiptEach;
      r := orch.KillLosers(winner);
      if !r.Ok? {
        return;
      }
      Forget(r.value);
      CoversReaped(r.value, Losers(old(orch.s.mem), winner));
    }

    /** `_forget`. */
    method Forget(receipts: seq<Receipt>)
      modifies this`prefix
      ensures prefix == old(prefix) - ReapedIds(receipts)
    {
      for i := 0 to |receipts|
        invariant prefix == old(prefix) - ReapedIds(receipts[..i])
      {
        if receipts[i].reaped {
          prefix := prefix - {receipts[i].id};
        }
        ReapedStep(receipts, i);
      }
      assert receipts[..|receipts|] == receipts;
    }

    /** The first half of `prepare_root`: an empty root, entered in the ledger. */
    method TrackRoot(root: Id, lease: Option<int>, now: int) returns (r: Outcome<Id>)
      requires Valid() && !PinnedWalks.Clobbers(orch.kv.live, root)
      modifies this`prefix, orch`s, orch`trace, orch`tried, orch.kv, orch.world
      ensures Valid() && orch.world.raised >= old(orch.world.raised) && orch.s.life == old(orch.s.life)
      ensures r.Ok? <==> && old(orch.s.life).Open? && root !in old(orch.s.mem) && (lease.Some? ==> lease.value > 0)
                         && orch.world.raised == old(orch.world.raised)
      ensures r.Ok? ==> LiveRecord(orch.s, root) && orch.s.mem[root].parent == None && prefix == old(prefix)[root := []]
      ensures r.Ok? ==> root !in old(orch.kv.live) && orch.s.mem.Keys == old(orch.s.mem.Keys) + {root}
      ensures r.Ok? ==> orch.kv.live == old(orch.kv.live)[root := Pos(root, [])] && Cached(orch.kv.live) == Cached(old(orch.kv.live))
      ensures forall x | x in old(orch.kv.live) :: x in orch.kv.live && orch.kv.live[x] == old(orch.kv.live)[x]
    {
      hide ForkOrchestrator.Valid, PinnedWalks.Clobbers, Admits, Cached;
      orch.Recorded();
      var made := orch.CreateParent(root, [], lease, now);
      if !made.Ok? {
        return match made case ValueError => ValueError case RuntimeError => RuntimeError case _ => BackendError;
      }
      EmptyRoot(old(orch.kv.live), root);
      prefix := prefix[root := []];
      r := Ok(root);
    }

    /** `prepare_root`: a root carrying exactly the shared context. */
    method PrepareRoot(root: Id, context: Text, lease: Option<int>, now: int) returns (r: Outcome<Id>)
      requires Valid() && !PinnedWalks.Clobbers(orch.kv.live, root)
      modifies this`prefix, orch`s, orch`trace, orch`tried, orch.kv, orch.world
      ensures Valid() && orch.world.raised >= old(orch.world.raised) && orch.s.life == old(orch.s.life)
      ensures r.Ok? <==> && old(orch.s.life).Open? && root !in old(orch.s.mem) && (lease.Some? ==> lease.value > 0)
                         && orch.world.raised == old(orch.world.raised)
                         && Admits(Cached(old(orch.kv.live)), Pos(root, Unit(context)), orch.kv.capacity, orch.kv.budget)
      ensures r.Ok? ==> r.value == root && Lineage(orch.s.mem, orch.kv.live, [root]) && orch.s.mem.Keys == old(orch.s.mem.Keys) + {root}
      ensures r.Ok? ==> prefix == old(prefix)[root := Unit(context)]
      ensures r.Ok? ==> orch.kv.live == old(orch.kv.live)[root := Pos(root, Unit(context))]
      ensures r.Ok? ==> Cached(orch.kv.live) == Cached(old(orch.kv.live)) + Prefixes(Pos(root, Unit(context)))
      ensures forall x | x in old(orch.kv.live) :: x in orch.kv.live && orch.kv.live[x] == old(orch.kv.live)[x]
    {
      hide ForkOrchestrator.Valid, PinnedWalks.Clobbers, Lineage, Admits, Cached, Prefixes, Ledger;
      var made := TrackRoot(root, lease, now);
      if !made.Ok? {
        return made;
      }
      ghost var live := orch.kv.live;
      var ok := Commit(root, Unit(context));
      if ok { RootCommitted(orch.s.mem, old(orch.kv.live), live, orch.kv.live, root, Unit(context)); }
      r := if ok then Ok(root) else BackendError;
    }

    /** `run_round`: the candidate kept is the one the round has to keep, and afterwards the
        line with it is all there is. */
    method RunRound(parent: Id, round: Round, now: int, ghost line: seq<Id>) returns (r: Outcome<BranchResult>, ghost w: nat)
      requires Valid() && WellFormed(round) && Lineage(orch.s.mem, orch.kv.live, line) && line[|line| - 1] == parent
      requires Elements(line) <= prefix.Keys
      modifies this`prefix, orch, orch.kv, orch.world
      ensures orch.Valid() && LedgerOfLiving(prefix, orch.kv.live) && orch.world.raised >= old(orch.world.raised)
      ensures parent in old(prefix)
      ensures r.Ok? <==> && AllExtend(old(prefix)[parent], round) && old(orch.s.life).Open? && IdsUsable(round, old(orch.s.mem))
                         && (exists v: nat :: WinsRound(old(Stage(line[0])), round, v)) && orch.world.raised == old(orch.world.raised)
      ensures r.Ok? ==> WinsRound(old(Stage(line[0])), round, w)
      ensures r.Ok? ==> r.value.prefix == Unit(round.continuations[w]) && round.verdicts[w] == Some(r.value.score) && !r.value.error
      ensures r.Ok? && round.childIds.Some? ==> w < |round.childIds.value| && r.value.id == round.childIds.value[w]
      ensures r.Ok? ==> Valid() && OnlyLine(orch.s.mem, orch.kv.live, prefix, line + [r.value.id]) && orch.s.life.Open?
      ensures r.Ok? ==> r.value.id in prefix && prefix[r.value.id] == r.value.prefix
      ensures r.Ok? ==> forall x | x in line :: x in old(prefix) && x in prefix && prefix[x] == old(prefix)[x]
    {
      hide ForkOrchestrator.Valid, FannedOut, Lineage, Losers, Wins, Gone, OnlyLine, WinsRound, IdsUsable, AllExtend, Cached;
      LineParent(orch.s.mem, orch.kv.live, prefix, line);
      w := 0;
      var results := FanOut(parent, round, now);
      if !results.Ok? {
        r := match results case KeyError => KeyError case ValueError => ValueError case RuntimeError => RuntimeError case _ => BackendError;
        return;
      }
      var best := SelectWinner(results.value);
      if !best.Ok? {
        NoneWins(old(orch.s), orch.s, old(orch.kv.live), orch.kv.live, old(prefix), prefix, parent, old(Stage(line[0])), round, results.value);
        r := RuntimeError;
        return;
      }
      w := best.value;
      SelectedWins(old(orch.s), orch.s, old(orch.kv.live), orch.kv.live, old(prefix), prefix, parent, old(Stage(line[0])), round, results.value, w);
      RoundWon(old(orch.s), old(orch.kv.live), old(prefix), line, old(Stage(line[0])), round, results.value, w);
      r := KeepWinner(results.value[best.value], line);
    }

    lemma RoundWon(s: State, live: Branches, ledger: map<Id, seq<Token>>, line: seq<Id>, g: Stage, round: Round, results: seq<BranchResult>, w: nat)
      requires Lineage(s.mem, live, line) && WellFormed(round) && Wins(results, w) && Ledger(ledger, live) && Ledger(prefix, orch.kv.live)
      requires FannedOut(s, orch.s, live, orch.kv.live, ledger, prefix, line[|line| - 1], g, round, results)
      requires Elements(line) <= ledger.Keys && line[|line| - 1] in ledger && ledger[line[|line| - 1]] < results[w].prefix
      ensures Lineage(orch.s.mem, orch.kv.live, line + [results[w].id]) && Elements(line + [results[w].id]) <= prefix.Keys
      ensures results[w].id in prefix && prefix[results[w].id] == results[w].prefix && !results[w].error
      ensures forall x | x in line :: x in ledger && x in prefix && prefix[x] == ledger[x]
    {
      hide FannedOut, Lineage;
      LineageGrows(s, orch.s, live, orch.kv.live, ledger, prefix, line, g, round, results, w);
      forall x | x in line ensures x in ledger && x in prefix && prefix[x] == ledger[x] {
        assert x in Elements(line);
        LedgerKept(ledger, live, orch.kv.live, prefix, orch.kv.live, line, x);
      }
    }

    /** The end of a round: kill everything outside the winner's line. */
    method KeepWinner(winner: BranchResult, ghost line: seq<Id>) returns (r: Outcome<BranchResult>)
      requires Valid() && Lineage(orch.s.mem, orch.kv.live, line + [winner.id]) && Elements(line + [winner.id]) <= prefix.Keys
      modifies this`prefix, orch`s, orch`trace, orch`tried, orch.kv, orch.world
      ensures orch.Valid() && LedgerOfLiving(prefix, orch.kv.live) && (r.Ok? ==> r.value == winner)
      ensures orch.world.raised >= old(orch.world.raised)
      ensures r.Ok? <==> old(orch.s.life).Open? && orch.world.raised == old(orch.world.raised)
      ensures r.Ok? ==> Valid() && OnlyLine(orch.s.mem, orch.kv.live, prefix, line + [winner.id]) && orch.s.life == old(orch.s.life)
      ensures r.Ok? ==> forall x | x in line + [winner.id] :: x in old(prefix) && x in prefix && prefix[x] == old(prefix)[x]
    {
      hide ForkOrchestrator.Valid, Lineage, Losers, Gone, OnlyLine, OneReceiptEach;
      orch.Recorded();
      ghost var all := line + [winner.id];
      assert all[|all| - 1] == winner.id;
      LastLive(orch.s, orch.kv.live, all);
      var killed := KillLosers(winner.id);
      if !killed.Ok? {
        return BackendError;
      }
      LineageKept(old(orch.s), orch.s, old(orch.kv.live), orch.kv.live, old(prefix), all);
      OnlyLineParts(orch.s.mem, orch.kv.live, prefix, all);
      forall x | x in all ensures x in old(prefix) && x in prefix && prefix[x] == old(prefix)[x] {
        assert x in Elements(all);
      }
      r := Ok(winner);
    }

    /** The loop of `solve`. */
    method RunRounds(root: Id, rounds: seq<Round>, now: int, ghost good: bool)
      returns (r: Outcome<BranchResult>, ghost line: seq<Id>, ghost ws: seq<nat>)
      requires Valid() && Lineage(orch.s.mem, orch.kv.live, [root]) && root in prefix && orch.s.life.Open?
      requires rounds != [] && forall round | round in rounds :: WellFormed(round)
      requires good ==> Solvable(Stage(root), prefix[root], rounds) && NamesFree(orch.s.mem.Keys, rounds)
      modifies this`prefix, orch, orch.kv, orch.world
      ensures orch.Valid() && LedgerOfLiving(prefix, orch.kv.live) && orch.world.raised >= old(orch.world.raised)
      ensures r.Ok? ==> Valid() && OnlyLine(orch.s.mem, orch.kv.live, prefix, line) && line[0] == root
      ensures r.Ok? ==> |ws| == |rounds| && Kept(old(Stage(root)), rounds, ws, prefix, line) && line[|rounds|] == r.value.id
      ensures r.Ok? ==> prefix[r.value.id] == r.value.prefix && prefix[root] == old(prefix)[root]
      ensures r.Ok? ==> ScoredBy(rounds[|rounds| - 1], ws[|rounds| - 1], r.value.score)
      ensures r.Ok? ==> orch.world.raised == old(orch.world.raised)
      ensures good && orch.world.raised == old(orch.world.raised) ==> r.Ok?
    {
      hide ForkOrchestrator.Valid, Lineage, OnlyLine, Cached, WinsRound, Solvable, Prefixes, Kept, StageAt, AllExtend;
      hide IdsUsable, NamesFree, NamedBefore;
      hide Elements, Unit;
      line, ws := [root], [];
      r := RuntimeError;
      ghost var g := Stage(root);
      ghost var taken := orch.s.mem.Keys;
      RoundsBegin(g, rounds, prefix, root);
      NamesBegin(orch.s.mem, rounds);
      var k, last := 0, root;
      while k < |rounds|
        invariant k <= |rounds| && Valid() && orch.s.life.Open? && Lineage(orch.s.mem, orch.kv.live, line)
        invariant |ws| == k && |line| == k + 1 && Kept(g, rounds, ws, prefix, line) && Elements(line) <= prefix.Keys
        invariant line[0] == root && line[k] == last && root in prefix && prefix[root] == old(prefix)[root] && last in prefix
        invariant StageAt(g, rounds, ws, k) == Stage(root) && orch.world.raised == old(orch.world.raised)
        invariant good ==> Solvable(Stage(root), prefix[last], rounds[k..]) && RecordedNames(orch.s.mem, taken, rounds, k)
        invariant k > 0 ==> && OnlyLine(orch.s.mem, orch.kv.live, prefix, line) && r.Ok? && last == r.value.id
                            && prefix[last] == r.value.prefix && ScoredBy(rounds[k - 1], ws[k - 1], r.value.score)
      {
        ghost var at, p, mem := Stage(root), prefix, orch.s.mem;
        if good {
          SolvableNow(at, prefix[last], rounds[k..]);
          NamesUsable(mem, taken, rounds, k);
        }
        LineageHas(mem, orch.kv.live, line);
        ghost var w;
        r, w := RunRound(last, rounds[k], now, line);
        if !r.Ok? {
          return;
        }
        last := r.value.id;
        KeptMore(g, rounds, ws, p, line, prefix, w, last);
        OnlyLineParts(orch.s.mem, orch.kv.live, prefix, line + [last]);
        if good {
          SolvableNext(at, p[line[k]], rounds[k..], w);
          NamesNext(mem, orch.s.mem, taken, rounds, k, line, w, last);
        }
        line, ws, k := line + [last], ws + [w], k + 1;
        LineStage(orch.s.mem, orch.kv.live, prefix, line, at, rounds[k - 1], w);
        assert rounds[k - 1..][1..] == rounds[k..];
      }
    }

    /** `solve`.  On normal return the branches left are the root and one winner per round: the
        `k`th is the candidate that round `k` has to keep.  The ledger says exactly what the
        cache holds for each, and what is resident is the last winner's prefix.  If no call
        raises, there is room for the context, child names are new and every round has a
        candidate to keep, it does return normally. */
    method Solve(root: Id, context: Text, rounds: seq<Round>, lease: Option<int>, now: int)
      returns (r: Outcome<BranchResult>, ghost line: seq<Id>, ghost ws: seq<nat>)
      requires Valid() && !PinnedWalks.Clobbers(orch.kv.live, root) && forall round | round in rounds :: WellFormed(round)
      modifies this`prefix, orch, orch.kv, orch.world
      ensures orch.Valid() && LedgerOfLiving(prefix, orch.kv.live) && orch.world.raised >= old(orch.world.raised)
      ensures rounds == [] ==> r == ValueError && orch.s == old(orch.s) && orch.kv.live == old(orch.kv.live)
      ensures r.Ok? ==>
                && Valid() && OnlyLine(orch.s.mem, orch.kv.live, prefix, line)
                && |line| == |rounds| + 1 && line[0] == root && line[|rounds|] == r.value.id
                && |orch.s.mem.Keys| == |rounds| + 1
                && root in prefix && prefix[root] == Unit(context)
                && r.value.id in prefix && prefix[r.value.id] == r.value.prefix
                && orch.kv.stats.resident == |r.value.prefix|
      ensures r.Ok? ==> Kept(First(Cached(old(orch.kv.live)), root, Unit(context), orch.kv.capacity, orch.kv.budget), rounds, ws, prefix, line)
      ensures r.Ok? ==> ScoredBy(rounds[|rounds| - 1], ws[|rounds| - 1], r.value.score)
      ensures r.Ok? ==> && old(orch.s.life).Open? && root !in old(orch.s.mem) && orch.world.raised == old(orch.world.raised)
                        && Admits(Cached(old(orch.kv.live)), Pos(root, Unit(context)), orch.kv.capacity, orch.kv.budget)
      ensures && rounds != [] && old(orch.s.life).Open? && root !in old(orch.s.mem) && (lease.Some? ==> lease.value > 0)
              && Admits(Cached(old(orch.kv.live)), Pos(root, Unit(context)), orch.kv.capacity, orch.kv.budget)
              && Solvable(First(Cached(old(orch.kv.live)), root, Unit(context), orch.kv.capacity, orch.kv.budget), Unit(context), rounds)
              && NamesFree(old(orch.s.mem.Keys) + {root}, rounds) && orch.world.raised == old(orch.world.raised)
              ==> r.Ok?
    {
      hide ForkOrchestrator.Valid, Lineage, PinnedWalks.Clobbers, OnlyLine, Cached, Admits, WinsRound, Solvable, Prefixes, IdsUsable;
      line, ws := [root], [];
      if rounds == [] {
        r := ValueError;
        return;
      }
      var ready := PrepareRoot(root, context, lease, now);
      if !ready.Ok? {
        r := match ready case ValueError => ValueError case RuntimeError => RuntimeError case _ => BackendError;
        return;
      }
      ghost var g := First(Cached(old(orch.kv.live)), root, Unit(context), orch.kv.capacity, orch.kv.budget);
      ghost var good := Solvable(g, Unit(context), rounds) && NamesFree(old(orch.s.mem.Keys) + {root}, rounds);
      FirstStage(old(orch.kv.live), orch.kv.live, root, Unit(context), orch.kv.capacity, orch.kv.budget);
      r, line, ws := RunRounds(root, rounds, now, good);
      if r.Ok? {
        OnlyLineParts(orch.s.mem, orch.kv.live, prefix, line);
        LineageResident(orch.s.mem, orch.kv.live, line);
        LineageDistinct(orch.s.mem, orch.kv.live, line);
        orch.Residency();
      }
    }
  }
}
