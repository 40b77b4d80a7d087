/**
`ForkOrchestrator` of `agentfork/orchestrator.py` over the tree-keyed cache, used
from one thread.  Every method is a run of the protocol machine, recorded in
`trace`; the sandbox backend and the registry file may fail at any call.
*/
module Orchestrator {
  import opened Common
  import opened Protocol
  import opened ProtocolRuns
  import opened TreeCache
  import RadixForest
  import BranchTrie
  import PinnedWalks
  import CacheState

  datatype Receipt = Receipt(id: Id, freed: nat, reaped: bool)

  /** The calls the orchestrator cannot see into -- the sandbox backend, the registry file --
      return or raise.  A call that raises may have taken effect nevertheless. */
  class World {
    ghost var raised: nat

    method Call() returns (ok: bool, effect: bool)
      modifies this
      ensures raised == old(raised) + (if ok then 0 else 1)
    {
      ok, effect := *, *;
      if !ok {
        raised := raised + 1;
      }
    }
  }

  /** What killing `id` frees. */
  ghost function Freed(live: BranchTrie.Branches, id: Id): nat {
    if id in live then |BranchTrie.Exclusive(live, id)| else 0
  }

  /** The kill a step attempts, if any. */
  function Attempt(l: Label): seq<Id> {
    if l.Kill? || l.SweepKill? then [l.id] else []
  }

  function Attempts(run: seq<Label>): (ids: seq<Id>)
    decreases |run|
  {
    if run == [] then [] else Attempts(run[..|run| - 1]) + Attempt(run[|run| - 1])
  }

  lemma {:induction false} LegalSnoc(s: State, run: seq<Label>, l: Label)
    requires Legal(s, run) && Takes(s, run) && Enabled(After(s, run), l) && !Recreates(After(s, run), l)
    ensures Legal(s, run + [l]) && Takes(s, run + [l]) && After(s, run + [l]) == Next(After(s, run), l)
    decreases |run|
  {
    hide Enabled, Next, Recreates;
    if run == [] {
      assert run + [l] == [l] && [l][1..] == [];
    } else {
      LegalSnoc(Next(s, run[0]), run[1..], l);
      assert (run + [l])[0] == run[0] && (run + [l])[1..] == run[1..] + [l];
    }
  }

  /** The steps taken since `start` lead to `s` and attempted the kills `tried`. */
  ghost predicate Traced(start: State, trace: seq<Label>, s: State, tried: seq<Id>) {
    Legal(start, trace) && Takes(start, trace) && s == After(start, trace) && tried == Attempts(trace)
  }

  lemma TracedStep(start: State, trace: seq<Label>, s: State, tried: seq<Id>, l: Label)
    requires Traced(start, trace, s, tried) && Enabled(s, l) && !Recreates(s, l)
    ensures Traced(start, trace + [l], Next(s, l), tried + Attempt(l))
  {
    LegalSnoc(start, trace, l);
    assert (trace + [l])[..|trace|] == trace;
  }

  lemma StaysUp(s: State, l: Label)
    requires s.up && Enabled(s, l) && !l.Crash?
    ensures Next(s, l).up
  {
  }

  /** Exactly `ids` are gone from the registry, the sandboxes and the cache. */
  ghost predicate Gone(s: State, t: State, a: BranchTrie.Branches, b: BranchTrie.Branches, ids: set<Id>) {
    && t.mem == s.mem - ids && t.loaded == s.loaded - ids && t.sandbox == s.sandbox - ids
    && b == a - ids
  }

  lemma GoneMore(s: State, t: State, u: State, a: BranchTrie.Branches, b: BranchTrie.Branches, c: BranchTrie.Branches,
                 ids: set<Id>, more: set<Id>)
    requires Gone(s, t, a, b, ids) && Gone(t, u, b, c, more)
    ensures Gone(s, u, a, c, ids + more)
  {
  }

  /** Kills of `ids`, succeeding or not, touched nothing else in the registry or the sandboxes. */
  ghost predicate Touched(s: State, t: State, ids: set<Id>) {
    && t.life == s.life && t.mem.Keys <= s.mem.Keys
    && (forall x | x in s.mem && x !in ids :: x in t.mem && t.mem[x] == s.mem[x])
    && (forall x | x in t.mem :: t.mem[x] == s.mem[x] || t.mem[x] == s.mem[x].(phase := Killing))
    && t.loaded <= s.loaded <= t.loaded + ids
    && t.sandbox <= s.sandbox <= t.sandbox + ids
  }

  /** ... nor in the cache: surviving branches keep their sequences. */
  ghost predicate Thinned(a: BranchTrie.Branches, b: BranchTrie.Branches, ids: set<Id>) {
    b.Keys <= a.Keys <= b.Keys + ids && forall x | x in b :: b[x] == a[x]
  }

  lemma TouchedMore(s: State, t: State, u: State, ids: set<Id>, more: set<Id>)
    requires Touched(s, t, ids) && Touched(t, u, more)
    ensures Touched(s, u, ids + more) && u.life == t.life
  {
    forall x | x in s.mem && x !in ids + more ensures x in u.mem && u.mem[x] == s.mem[x] { assert x in t.mem; }
    forall x | x in u.mem ensures u.mem[x] == s.mem[x] || u.mem[x] == s.mem[x].(phase := Killing) { assert x in t.mem; }
  }

  lemma ThinnedMore(a: BranchTrie.Branches, b: BranchTrie.Branches, c: BranchTrie.Branches, ids: set<Id>, more: set<Id>)
    requires Thinned(a, b, ids) && Thinned(b, c, more)
    ensures Thinned(a, c, ids + more)
  {
  }

  function Elements(ids: seq<Id>): set<Id> {
    set x | x in ids
  }

  predicate Distinct(ids: seq<Id>) {
    forall i, j | 0 <= i < j < |ids| :: ids[i] != ids[j]
  }

  /** Tokens freed according to the receipts. */
  function Total(receipts: seq<Receipt>): (n: nat) {
    if receipts == [] then 0 else Total(receipts[..|receipts| - 1]) + receipts[|receipts| - 1].freed
  }

  lemma TotalStep(receipts: seq<Receipt>, r: Receipt)
    ensures Total(receipts + [r]) == Total(receipts) + r.freed
  {
    assert (receipts + [r])[..|receipts|] == receipts;
  }

  /** One reaped receipt per id, in order. */
  predicate Receipted(receipts: seq<Receipt>, ids: seq<Id>) {
    |receipts| == |ids| && forall i | 0 <= i < |ids| :: receipts[i].id == ids[i] && receipts[i].reaped
  }

  /** Starting a kill when nothing is in flight. */
  lemma KillStart(s: State, op: nat, id: Id, ok: bool)
    requires s.up && s.life.Open? && s.ops == map[] && s.spawning == {} && s.killing == {} && id in s.mem
    ensures Enabled(s, Kill(op, id, ok)) && !Recreates(s, Kill(op, id, ok)) && Attempt(Kill(op, id, ok)) == [id]
    ensures !ok ==> Next(s, Kill(op, id, ok)) == s
    ensures ok ==> var t := Next(s, Kill(op, id, ok));
                   && t.ops == map[op := Reaping(id, ReapSandbox, false)] && t.killing == {id}
                   && t.mem == s.mem[id := s.mem[id].(phase := Killing)]
                   && t.loaded == s.loaded && t.sandbox == s.sandbox && t.kv == s.kv && t.life == s.life && t.spawning == {}
  {
  }

  /** The steps of a kill that runs alone. */
  lemma KillSteps(s: State, l: Label)
    requires s.up && (l.KillSandbox? || l.KillKv? || l.GiveUp? || l.Finish?)
    requires l.op in s.ops && s.ops == map[l.op := s.ops[l.op]] && s.ops[l.op].Reaping?
    requires s.ops[l.op].kill == (if l.KillSandbox? then ReapSandbox else if l.KillKv? then ReapKv else if l.GiveUp? then Abandon else ForgetRecord)
    ensures Enabled(s, l) && !Recreates(s, l) && Attempt(l) == []
    ensures var o, t := s.ops[l.op], Next(s, l);
            && t.mem == (if l.Finish? && l.ok then s.mem - {o.id} else s.mem)
            && t.loaded == (if l.Finish? && l.ok then s.loaded - {o.id} else s.loaded)
            && t.sandbox == (if l.KillSandbox? && (l.ok || l.effect) then s.sandbox - {o.id} else s.sandbox)
            && t.kv == (if l.KillKv? && (l.ok || l.effect) then s.kv - {o.id} else s.kv)
            && t.life == (if l.GiveUp? || (l.Finish? && !l.ok) then Failed(s, o.sweep).life else s.life)
            && t.killing == (if l.GiveUp? || l.Finish? then s.killing - {o.id} else s.killing)
            && t.spawning == s.spawning
            && t.ops == (if l.GiveUp? || l.Finish? then map[]
                         else map[l.op := o.(kill := if !l.ok then Abandon else if l.KillSandbox? then ReapKv else ForgetRecord)])
  {
  }

  lemma KvRecorded(s: State)
    requires Inv(s) && s.up
    ensures s.kv <= s.mem.Keys && s.sandbox <= s.mem.Keys && s.loaded <= s.mem.Keys
  {
    hide Exclusive, InFlight, OpsOk, ClosingOk;
  }

  lemma TouchedNone(s: State)
    ensures Touched(s, s, {})
  {
  }

  lemma GoneNone(s: State, a: BranchTrie.Branches)
    ensures Gone(s, s, a, a, {})
  {
  }

  lemma TouchedAt(s: State, t: State, ids: set<Id>, x: Id)
    requires Touched(s, t, ids) && x in s.mem && x !in ids
    ensures x in t.mem && t.mem[x] == s.mem[x]
  {
  }

  /** Where a sweep over `ids` stands: only they are touched; without a failure they are gone,
      with one receipt each, and the receipts add up to what was freed. */
  ghost predicate Swept(s: State, t: State, a: BranchTrie.Branches, b: BranchTrie.Branches, ids: seq<Id>,
                        receipts: seq<Receipt>, failed: bool, spent: int) {
    && Touched(s, t, Elements(ids)) && Thinned(a, b, Elements(ids))
    && (!failed ==> Receipted(receipts, ids) && Gone(s, t, a, b, Elements(ids)) && Total(receipts) == spent)
  }

  lemma SweptNone(s: State, a: BranchTrie.Branches)
    ensures Swept(s, s, a, a, [], [], false, 0)
  {
    assert Elements([]) == {};
    TouchedNone(s);
    ThinnedNone(a);
    GoneNone(s, a);
  }

  lemma SweptParts(s: State, t: State, a: BranchTrie.Branches, b: BranchTrie.Branches, ids: seq<Id>,
                   receipts: seq<Receipt>, failed: bool, spent: int)
    requires Swept(s, t, a, b, ids, receipts, failed, spent)
    ensures Touched(s, t, Elements(ids)) && Thinned(a, b, Elements(ids))
    ensures !failed ==> Receipted(receipts, ids) && Gone(s, t, a, b, Elements(ids)) && Total(receipts) == spent
  {
  }

  /** One more kill of the sweep. */
  lemma SweptMore(s: State, t: State, u: State, a: BranchTrie.Branches, b: BranchTrie.Branches, c: BranchTrie.Branches, ids: seq<Id>,
                  receipts: seq<Receipt>, failed: bool, spent: int, id: Id, r: Outcome<Receipt>)
    requires Swept(s, t, a, b, ids, receipts, failed, spent) && Touched(t, u, {id}) && Thinned(b, c, {id})
    requires r.Ok? ==> Gone(t, u, b, c, {id}) && r.value.id == id && r.value.reaped
    ensures u.life == t.life
    ensures r.Ok? ==> Swept(s, u, a, c, ids + [id], receipts + [r.value], failed, spent + r.value.freed)
    ensures !r.Ok? ==> forall any :: Swept(s, u, a, c, ids + [id], receipts, true, any)
  {
    hide Touched, Thinned, Gone, Total;
    assert Elements(ids + [id]) == Elements(ids) + {id};
    TouchedMore(s, t, u, Elements(ids), {id});
    ThinnedMore(a, b, c, Elements(ids), {id});
    if r.Ok? {
      TotalStep(receipts, r.value);
      if !failed { GoneMore(s, t, u, a, b, c, Elements(ids), {id}); }
    }
  }

  lemma TouchedEmpty(s: State, ids: set<Id>)
    ensures Touched(s, s, ids)
  {
  }

  lemma ThinnedEmpty(a: BranchTrie.Branches, ids: set<Id>)
    ensures Thinned(a, a, ids)
  {
  }

  lemma Joined(a: seq<Id>, b: seq<Id>)
    requires Distinct(a) && Distinct(b) && Elements(a) !! Elements(b)
    ensures Distinct(a + b) && Elements(a + b) == Elements(a) + Elements(b)
  {
    forall i, j | 0 <= i < j < |a + b| ensures (a + b)[i] != (a + b)[j] {
      if i < |a| && |a| <= j { assert a[i] in Elements(a) && b[j - |a|] in Elements(b); }
    }
  }

  lemma ThinnedNone(a: BranchTrie.Branches)
    ensures Thinned(a, a, {})
  {
  }

  lemma ElementsStep(ids: seq<Id>, i: nat)
    requires i < |ids|
    ensures Elements(ids[..i + 1]) == Elements(ids[..i]) + {ids[i]} && ids[..i + 1] == ids[..i] + [ids[i]]
    ensures Distinct(ids) ==> ids[i] !in ids[..i] && ids[i] !in Elements(ids[i + 1..])
    ensures Elements(ids[i..]) == Elements(ids[i + 1..]) + {ids[i]}
  {
    assert ids[i..] == [ids[i]] + ids[i + 1..];
  }

  /******* Creation *******/

  /** The steps of a creation, one operation among others. */
  lemma SpawnSteps(s: State, l: Label, id: Id)
    requires s.up && (l.KvCreate? || l.SandboxSpawn? || l.NotReady? || l.RollbackKv? || l.RollbackSandbox? || l.RollbackForget? || l.Finally?)
    requires l.op in s.ops && s.ops[l.op].Spawning? && s.ops[l.op].id == id
    requires match l
             case KvCreate(_, _, _) => s.ops[l.op].spawn == CreateKv
             case SandboxSpawn(_, _, _) => s.ops[l.op].spawn == SpawnSandbox
             case NotReady(_) => s.ops[l.op].spawn == CommitLive
             case RollbackKv(_, ok, _) => ok && s.ops[l.op].spawn == RollKv
             case RollbackSandbox(_, _, _) => s.ops[l.op].spawn == RollSandbox(false)
             case RollbackForget(_, _) => s.ops[l.op].spawn == RollForget
             case _ => s.ops[l.op].spawn == Unwind
    ensures Enabled(s, l) && !Recreates(s, l) && Attempt(l) == []
    ensures var t := Next(s, l);
            && t.mem == (if l.RollbackForget? && l.ok then s.mem - {id} else s.mem)
            && t.loaded == (if l.RollbackForget? && l.ok then s.loaded - {id} else s.loaded)
            && t.kv == (if l.KvCreate? && (l.ok || l.effect) then s.kv + {id} else if l.RollbackKv? then s.kv - {id} else s.kv)
            && t.sandbox == (if l.SandboxSpawn? && (l.ok || l.effect) then s.sandbox + {id}
                             else if l.RollbackSandbox? && (l.ok || l.effect) then s.sandbox - {id} else s.sandbox)
            && t.life == s.life && t.killing == s.killing
            && t.spawning == (if l.Finally? then s.spawning - {id} else s.spawning)
            && t.ops == (if l.Finally? then s.ops - {l.op} else s.ops[l.op := s.ops[l.op].(spawn := StepAfter(l))])
  {
  }

  /** The step an operation is at after `l`. */
  function StepAfter(l: Label): SpawnStep {
    match l
    case KvCreate(_, ok, _) => if ok then SpawnSandbox else RollKv
    case SandboxSpawn(_, ok, _) => if ok then CommitLive else RollKv
    case NotReady(_) => RollKv
    case RollbackKv(_, ok, _) => RollSandbox(!ok)
    case RollbackSandbox(_, ok, _) => if ok then RollForget else Unwind
    case _ => Unwind
  }

  lemma CommitStep(s: State, op: nat, id: Id, ok: bool)
    requires Inv(s) && SpawnAt(s, op, CommitLive) && s.up && s.ops[op].id == id
    ensures Enabled(s, Commit(op, ok)) && !Recreates(s, Commit(op, ok)) && Attempt(Commit(op, ok)) == []
    ensures id in s.mem && id in s.kv && id !in s.loaded
    ensures var t := Next(s, Commit(op, ok));
            && t.loaded == s.loaded && t.kv == s.kv && t.sandbox == s.sandbox && t.life == s.life
            && t.killing == s.killing && t.spawning == s.spawning
            && if ok && (s.ops[op].parent.Some? ==> LiveRecord(s, s.ops[op].parent.value)) then
                 t.mem == s.mem[id := s.mem[id].(phase := Live)] && t.ops == s.ops[op := s.ops[op].(spawn := Unwind)]
               else t.mem == s.mem && t.ops == s.ops[op := s.ops[op].(spawn := RollKv)]
  {
    hide Exclusive, InFlight, Accounted, ClosingOk;
    assert OpOk(s, s.ops[op]);
  }

  lemma SpawnFacts(s: State, op: nat)
    requires Inv(s) && s.up && op in s.ops && s.ops[op].Spawning? && s.ops[op].spawn != Unwind
    ensures var id := s.ops[op].id;
            id in s.mem && s.mem[id].phase == Forking && s.mem[id].parent == s.ops[op].parent && id !in s.loaded && id in s.spawning
  {
    hide Exclusive, Accounted, ClosingOk;
    assert OpOk(s, s.ops[op]);
  }

  /** The cache has room for the part of the longer sequence that is not cached yet. */
  ghost predicate Admitted(kv: TreeKVCache, live: BranchTrie.Branches, id: Id, tokens: seq<RadixForest.Token>) {
    id in live && Admits(BranchTrie.Cached(live), RadixForest.Pos(live[id].ns, live[id].path + tokens), kv.capacity, kv.budget)
  }

  lemma AppendNothing(live: BranchTrie.Branches, id: Id)
    requires id in live
    ensures live[id := RadixForest.Pos(live[id].ns, live[id].path + [])] == live
  {
    assert live[id].path + [] == live[id].path;
  }

  /** What a creation of `id` has left when it failed.  If the cleanup itself met no error nothing is left;
      otherwise its record, and possibly its sandbox, but never its KV branch. */
  ghost predicate Unrolled(s: State, t: State, id: Id, clean: bool) {
    && (t.mem == s.mem || t.mem == s.mem - {id}) && (clean ==> t.mem == s.mem - {id})
    && t.loaded == s.loaded && t.life == s.life && t.killing == s.killing
    && t.sandbox - {id} == s.sandbox - {id} && (clean ==> id !in t.sandbox)
  }

  /** Journaling a root when nothing is in flight. */
  lemma CreateStart(s: State, id: Id, lease: Option<int>, ok: bool)
    requires s.up && s.life.Open? && s.ops == map[] && s.spawning == {} && s.killing == {} && id !in s.mem
    ensures var l := Create(0, id, lease, ok);
            && Enabled(s, l) && !Recreates(s, l) && Attempt(l) == []
            && (!ok ==> Next(s, l) == s)
            && (ok ==> var t := Next(s, l);
                       && t.ops == map[0 := Spawning(id, None, CreateKv)] && t.spawning == {id} && t.killing == {}
                       && t.mem == s.mem[id := Record(None, Forking, lease)]
                       && t.loaded == s.loaded && t.life == s.life && t.kv == s.kv && t.sandbox == s.sandbox)
  {
  }

  /** A root without tokens caches nothing. */
  lemma EmptyRoot(live: BranchTrie.Branches, id: Id)
    requires id !in live
    ensures BranchTrie.Cached(live[id := RadixForest.Pos(id, [])]) == BranchTrie.Cached(live)
  {
    BranchTrie.CachedWith(live, id, RadixForest.Pos(id, []));
    assert BranchTrie.Prefixes(RadixForest.Pos(id, [])) == {};
  }

  /** `_lease_expiry`. */
  function LeaseExpiry(lease: Option<int>, fallback: Option<int>, now: int): (r: Outcome<Option<int>>) {
    var l := if lease.Some? then lease else fallback;
    if l.None? then Ok(None) else if l.value <= 0 then ValueError else Ok(Some(now + l.value))
  }

  function ChildName(parent: Id, k: nat): (id: Id)
    ensures id != ""
  {
    parent + "/" + Decimal(k)
  }

  lemma ChildNameInjective(parent: Id, j: nat, k: nat)
    requires ChildName(parent, j) == ChildName(parent, k)
    ensures j == k
  {
    assert ChildName(parent, j)[|parent| + 1..] == Decimal(j);
    assert ChildName(parent, k)[|parent| + 1..] == Decimal(k);
    DecimalInjective(j, k);
  }

  /** `x` is a child id of `parent` with a number after `last` and up to `now`. */
  ghost predicate Generated(parent: Id, last: nat, now: nat, x: Id) {
    exists k: nat :: last < k <= now && x == parent + "/" + Decimal(k)
  }

  /** The child ids `fork` accepts from its caller. */
  predicate Acceptable(ids: seq<Id>, n: int, mem: map<Id, Record>) {
    |ids| == n && Distinct(ids) && Elements(ids) !! mem.Keys
  }

  /** Recorded names of children numbered beyond `k`. */
  ghost function NamesAhead(mem: map<Id, Record>, parent: Id, k: nat): set<Id> {
    set x | x in mem && exists j: nat :: k < j && x == ChildName(parent, j)
  }

  lemma NamesAheadShrink(mem: map<Id, Record>, parent: Id, k: nat)
    requires ChildName(parent, k + 1) in mem
    ensures |NamesAhead(mem, parent, k + 1)| < |NamesAhead(mem, parent, k)|
  {
    var x := ChildName(parent, k + 1);
    assert x in NamesAhead(mem, parent, k);
    forall y | y in NamesAhead(mem, parent, k + 1) ensures y in NamesAhead(mem, parent, k) && y != x {
      var j: nat :| k + 1 < j && y == ChildName(parent, j);
      if y == x { ChildNameInjective(parent, j, k + 1); }
    }
    BranchTrie.SubsetSize(NamesAhead(mem, parent, k + 1), NamesAhead(mem, parent, k) - {x});
  }

  /** The children from the `i`th on, journaled and waiting. */
  function Waiting(ids: seq<Id>, parent: Id, i: nat): map<nat, Op> {
    map o: nat | i <= o < |ids| :: Spawning(ids[o], Some(parent), CreateKv)
  }

  /** Everything there was before is as before; every new KV branch is a copy of
      the parent's, under a live record. */
  ghost predicate ForkFrame(s: State, t: State, a: BranchTrie.Branches, b: BranchTrie.Branches, parent: Id, ids: set<Id>) {
    && t.life == s.life && t.loaded == s.loaded
    && s.mem.Keys <= t.mem.Keys <= s.mem.Keys + ids && (forall x | x in s.mem :: t.mem[x] == s.mem[x])
    && (forall x | x in t.mem && x !in s.mem :: t.mem[x].parent == Some(parent))
    && a.Keys <= b.Keys <= a.Keys + ids && (forall x | x in a :: b[x] == a[x])
    && (forall x | x in b && x !in a :: parent in a && b[x] == a[parent] && LiveRecord(t, x))
    && s.sandbox <= t.sandbox <= s.sandbox + ids
  }

  /** All children are live: recorded, at the parent's position, with a sandbox. */
  ghost predicate Forked(t: State, b: BranchTrie.Branches, parent: Id, lease: Option<int>, ids: set<Id>) {
    && (forall x | x in ids :: x in t.mem && t.mem[x] == Record(Some(parent), Live, lease) && x in t.sandbox)
    && (forall x | x in ids :: x in b && parent in b && b[x] == b[parent])
  }

  /** Children not yet spawned are journaled. */
  ghost predicate Journaled(t: State, b: BranchTrie.Branches, parent: Id, lease: Option<int>, ids: set<Id>) {
    forall x | x in ids :: x in t.mem && t.mem[x] == Record(Some(parent), Forking, lease) && x !in b
  }

  /** Journaling the children when nothing is in flight. */
  lemma ForkStart(s: State, parent: Id, ids: seq<Id>, lease: Option<int>, ok: bool)
    requires Inv(s) && s.up && s.life.Open? && s.ops == map[] && s.spawning == {} && s.killing == {} && LiveRecord(s, parent)
    requires Distinct(ids) && Elements(ids) !! s.mem.Keys
    ensures var l := Label.Fork(parent, map o: nat | 0 <= o < |ids| :: ids[o], lease, ok);
            && Enabled(s, l) && !Recreates(s, l) && Attempt(l) == []
            && (!ok ==> Next(s, l) == s)
            && (ok ==> var t := Next(s, l);
                       && t.ops == Waiting(ids, parent, 0) && t.spawning == Elements(ids) && t.killing == {}
                       && t.mem.Keys == s.mem.Keys + Elements(ids) && t.life == s.life && t.loaded == s.loaded
                       && t.kv == s.kv && t.sandbox == s.sandbox
                       && (forall x | x in s.mem :: t.mem[x] == s.mem[x])
                       && (forall x | x in ids :: t.mem[x] == Record(Some(parent), Forking, lease)))
  {
    hide Inv;
    SpawnsOf(ids);
  }

  /** The children of a fork, as the protocol numbers them. */
  lemma SpawnsOf(ids: seq<Id>)
    ensures var spawns := map o: nat | 0 <= o < |ids| :: ids[o];
            spawns.Values == Elements(ids) && (Distinct(ids) ==> Injective(spawns))
  {
    var spawns := map o: nat | 0 <= o < |ids| :: ids[o];
    forall x ensures x in spawns.Values <==> x in Elements(ids) {
      if x in Elements(ids) {
        var i :| 0 <= i < |ids| && ids[i] == x;
        assert spawns[i] == x;
      }
    }
  }

  lemma WaitingStep(ids: seq<Id>, parent: Id, i: nat)
    requires i < |ids|
    ensures i in Waiting(ids, parent, i) && Waiting(ids, parent, i)[i] == Spawning(ids[i], Some(parent), CreateKv)
    ensures Waiting(ids, parent, i) - {i} == Waiting(ids, parent, i + 1)
    ensures Waiting(ids, parent, |ids|) == map[]
  {
  }

  lemma WaitingNone(ids: seq<Id>, parent: Id)
    ensures Waiting(ids, parent, |ids|) == map[]
  {
  }

  lemma FrameNone(s: State, a: BranchTrie.Branches, parent: Id, ids: set<Id>)
    ensures ForkFrame(s, s, a, a, parent, ids)
  {
  }

  lemma FrameLife(s: State, t: State, a: BranchTrie.Branches, b: BranchTrie.Branches, parent: Id, ids: set<Id>)
    requires ForkFrame(s, t, a, b, parent, ids)
    ensures t.life == s.life
  {
  }

  lemma FrameStart(s: State, t: State, a: BranchTrie.Branches, parent: Id, lease: Option<int>, ids: set<Id>)
    requires t.mem.Keys == s.mem.Keys + ids && t.life == s.life && t.loaded == s.loaded && t.sandbox == s.sandbox
    requires forall x | x in s.mem :: t.mem[x] == s.mem[x]
    requires forall x | x in ids :: t.mem[x] == Record(Some(parent), Forking, lease)
    requires ids !! s.mem.Keys && a.Keys <= s.mem.Keys
    ensures ForkFrame(s, t, a, a, parent, ids) && Journaled(t, a, parent, lease, ids) && Forked(t, a, parent, lease, {})
  {
  }

  lemma FrameParts(s: State, t: State, a: BranchTrie.Branches, b: BranchTrie.Branches, parent: Id, lease: Option<int>, ids: seq<Id>, i: nat)
    requires ForkFrame(s, t, a, b, parent, Elements(ids)) && i < |ids| && Journaled(t, b, parent, lease, Elements(ids[i..]))
    requires LiveRecord(s, parent) && Elements(ids) !! s.mem.Keys
    ensures LiveRecord(t, parent) && ids[i] !in b && parent !in Elements(ids) && (parent in b <==> parent in a) && ids[i] in Elements(ids)
  {
    assert ids[i] in Elements(ids[i..]) && ids[i] in Elements(ids);
  }

  lemma SweepRecorded(s: State)
    requires Inv(s) && s.up && s.life.Sweeping?
    ensures s.life.todo <= s.mem.Keys
  {
    hide Exclusive, InFlight, OpsOk, Accounted;
  }

  /** One child settled, well or badly: the frame and the other children are untouched. */
  lemma ForkSettled(s: State, t: State, u: State, a: BranchTrie.Branches, b: BranchTrie.Branches, c: BranchTrie.Branches,
                    parent: Id, lease: Option<int>, all: set<Id>, done: set<Id>, rest: set<Id>, id: Id, ok: bool, clean: bool)
    requires ForkFrame(s, t, a, b, parent, all) && Journaled(t, b, parent, lease, rest + {id})
    requires id in all && id !in s.mem && id !in done && id !in rest && LiveRecord(s, parent)
    requires ok ==> id in t.mem && u.mem == t.mem[id := t.mem[id].(phase := Live)] && u.sandbox == t.sandbox + {id}
                    && u.loaded == t.loaded && u.life == t.life && parent in b && c == b[id := b[parent]]
    requires !ok ==> Unrolled(t, u, id, clean) && c == b
    requires id !in s.sandbox && parent !in all && (parent in b ==> parent in a)
    ensures ForkFrame(s, u, a, c, parent, all) && Journaled(u, c, parent, lease, rest)
    ensures ok && Forked(t, b, parent, lease, done) ==> Forked(u, c, parent, lease, done + {id})
  {
    forall x | x in rest ensures x in u.mem && u.mem[x] == Record(Some(parent), Forking, lease) && x !in c { assert x in rest + {id}; }
    assert id in rest + {id};
    forall x | x in s.sandbox ensures x in u.sandbox { assert x in t.sandbox - {id}; }
    forall x | x in u.sandbox ensures x in s.sandbox + all { if x != id { assert x in u.sandbox - {id}; } }
  }

  /******* Collection *******/

  /** The branch `k` recorded parent links above `id`; a branch without a record ends the line. */
  ghost function Ascend(mem: map<Id, Record>, id: Id, k: nat): Option<Id> {
    if k == 0 then Some(id)
    else
      var below := Ascend(mem, id, k - 1);
      if below.Some? && below.value in mem then mem[below.value].parent else None
  }

  /** `x` is `winner` or one of its recorded ancestors. */
  ghost predicate InLine(mem: map<Id, Record>, winner: Id, x: Id) {
    exists k: nat :: Ascend(mem, winner, k) == Some(x)
  }

  ghost function Losers(mem: map<Id, Record>, winner: Id): set<Id> {
    set x | x in mem && !InLine(mem, winner, x)
  }

  lemma LineStart(mem: map<Id, Record>, winner: Id)
    ensures InLine(mem, winner, winner)
  {
    assert Ascend(mem, winner, 0) == Some(winner);
  }

  lemma LineStep(mem: map<Id, Record>, winner: Id, x: Id, p: Id)
    requires InLine(mem, winner, x) && x in mem && mem[x].parent == Some(p)
    ensures InLine(mem, winner, p)
  {
    var k: nat :| Ascend(mem, winner, k) == Some(x);
    assert Ascend(mem, winner, k + 1) == Some(p);
  }

  /** A set closed under recorded parents holds the whole line. */
  lemma {:induction false} LineInside(mem: map<Id, Record>, winner: Id, keep: set<Id>, k: nat)
    requires winner in keep && forall x | x in keep && x in mem && mem[x].parent.Some? :: mem[x].parent.value in keep
    ensures Ascend(mem, winner, k).Some? ==> Ascend(mem, winner, k).value in keep
  {
    if k > 0 { LineInside(mem, winner, keep, k - 1); }
  }

  /** One reaped receipt for each of `ids`, and no other. */
  predicate OneReceiptEach(receipts: seq<Receipt>, ids: set<Id>) {
    && (forall i | 0 <= i < |receipts| :: receipts[i].id in ids && receipts[i].reaped)
    && (forall i, j | 0 <= i < j < |receipts| :: receipts[i].id != receipts[j].id)
    && (forall x | x in ids :: exists i :: 0 <= i < |receipts| && receipts[i].id == x)
  }

  lemma ReceiptedCovers(receipts: seq<Receipt>, ids: seq<Id>)
    requires Receipted(receipts, ids) && Distinct(ids)
    ensures OneReceiptEach(receipts, Elements(ids))
  {
    forall x | x in Elements(ids) ensures exists i :: 0 <= i < |receipts| && receipts[i].id == x {
      var i :| 0 <= i < |ids| && ids[i] == x;
      assert receipts[i].id == x;
    }
  }

  predicate Expired(r: Record, now: int) {
    r.lease.Some? && r.lease.value <= now
  }

  /** What `reconcile` leaves alone: live, made by this process, and within its lease. */
  predicate Healthy(s: State, now: int, x: Id) {
    && x in s.mem && s.mem[x].phase == Live && x !in s.loaded
    && (s.mem[x].lease.None? || now < s.mem[x].lease.value)
  }

  /** What `reconcile` collects. */
  ghost function Unhealthy(s: State, now: int): set<Id> {
    set x | x in s.mem && !Healthy(s, now, x)
  }

  lemma CollectSets(s: State, now: int, stuck: set<Id>, expired: set<Id>)
    requires s.spawning == {} && s.killing == {} && s.loaded <= s.mem.Keys
    requires stuck == set x | x in s.mem && (s.mem[x].phase != Live || x in s.loaded)
    requires expired == set x | x in s.mem && Expired(s.mem[x], now) && x !in stuck
    ensures stuck + expired == Unhealthy(s, now) && stuck !! expired
  {
  }

  lemma CollectKeeps(s: State, t: State, a: BranchTrie.Branches, b: BranchTrie.Branches, now: int)
    requires Touched(s, t, Unhealthy(s, now)) && Thinned(a, b, Unhealthy(s, now))
    ensures forall x | Healthy(s, now, x) :: x in t.mem && t.mem[x] == s.mem[x]
    ensures forall x | Healthy(s, now, x) && x in a :: x in b && b[x] == a[x]
    ensures t.life == s.life && t.loaded <= s.loaded
  {
  }

  lemma CollectedExactly(s: State, t: State, a: BranchTrie.Branches, b: BranchTrie.Branches, now: int)
    requires Gone(s, t, a, b, Unhealthy(s, now)) && a.Keys <= s.mem.Keys && s.sandbox <= s.mem.Keys
    ensures forall x :: x in t.mem <==>
              && x in s.mem && s.mem[x].phase == Live && x !in s.loaded && (s.mem[x].lease.None? || now < s.mem[x].lease.value)
    ensures t.sandbox == s.sandbox * t.mem.Keys && b.Keys == a.Keys * t.mem.Keys
    ensures Unhealthy(s, now) == s.mem.Keys - t.mem.Keys
  {
  }

  /** The kills attempted since `old` are one for each of `ids`. */
  ghost predicate TriedOnce(was: seq<Id>, now: seq<Id>, ids: set<Id>) {
    was <= now && Distinct(now[|was|..]) && Elements(now[|was|..]) == ids
  }

  /** List a set in some order, as iterating a dictionary does. */
  method Listed(ids: set<Id>) returns (q: seq<Id>)
    ensures Distinct(q) && Elements(q) == ids
  {
    q := [];
    var rest := ids;
    while rest != {}
      invariant Distinct(q) && Elements(q) + rest == ids && Elements(q) !! rest
    {
      var x :| x in rest;
      assert forall i | 0 <= i < |q| :: q[i] in Elements(q);
      q, rest := q + [x], rest - {x};
    }
  }

  class ForkOrchestrator {
    const kv: TreeKVCache
    const world: World
    const defaultLease: Option<int>
    var s: State
    var seqNo: nat
    ghost var start: State
    ghost var trace: seq<Label>

    ghost var tried: seq<Id>

    /** The invariant while operations are in flight. */
    ghost predicate Ready()
      reads this, kv
    {
      && kv.Valid() && s.up && Inv(s) && s.kv == kv.live.Keys && (defaultLease.Some? ==> defaultLease.value > 0)
      && Traced(start, trace, s, tried)
    }

    /** The invariant between calls. */
    ghost predicate Valid()
      reads this, kv
    {
      Ready() && s.ops == map[] && s.spawning == {} && s.killing == {} && (s.life.Open? || s.life.Closed?)
    }

    /** Take over the registry a previous owner left, with the sandboxes still running under it. */
    constructor (kv: TreeKVCache, world: World, defaultLease: Option<int>, disk: map<Id, Record>, running: set<Id>, seqNo: nat)
      requires kv.Valid() && kv.live == map[] && running <= disk.Keys && (defaultLease.Some? ==> defaultLease.value > 0)
      ensures Valid() && this.kv == kv && this.world == world && this.defaultLease == defaultLease
      ensures s.mem == disk && s.loaded == disk.Keys && s.sandbox == running && s.life.Open?
    {
      this.kv, this.world, this.defaultLease, this.seqNo := kv, world, defaultLease, seqNo;
      s := State(true, disk, disk, {}, {}, disk.Keys, Open, map[], {}, running, {});
      start := State(true, disk, disk, {}, {}, disk.Keys, Open, map[], {}, running, {});
      trace, tried := [], [];
    }

    lemma KvKeys()
      requires kv.Valid()
      ensures kv.trees.Keys == kv.live.Keys && kv.treeTokens.Keys == kv.live.Keys
      ensures forall t | t in kv.live :: kv.live[t] == RadixForest.Pos(kv.trees[t].namespace, kv.treeTokens[t])
    {
      hide CacheState.Sound;
    }

    lemma Recorded()
      requires Valid()
      ensures s.kv == kv.live.Keys && kv.live.Keys <= s.mem.Keys
    {
      hide Inv, Traced, TreeKVCache.Valid;
      KvRecorded(s);
    }

    lemma LoadedRecorded()
      requires Valid()
      ensures s.loaded <= s.mem.Keys
    {
      hide Inv, Traced, TreeKVCache.Valid;
      KvRecorded(s);
    }

    lemma Residency()
      requires Valid()
      ensures kv.stats.resident == |BranchTrie.Cached(kv.live)|
    {
      hide Inv, Traced, CacheState.Sound;
      kv.Parts();
    }

    /** One step of the protocol. */
    method Take(l: Label)
      requires s.up && Inv(s) && Enabled(s, l) && !Recreates(s, l) && !l.Crash? && Traced(start, trace, s, tried)
      modifies this`s, this`trace, this`tried
      ensures s == Next(old(s), l) && s.up && Inv(s) && tried == old(tried) + Attempt(l)
      ensures Traced(start, trace, s, tried)
    {
      hide Inv, Traced;
      StepInv(s, l);
      TracedStep(start, trace, s, tried, l);
      StaysUp(s, l);
      s, trace, tried := Next(s, l), trace + [l], tried + Attempt(l);
    }

    /** From journaled intent on: reap the sandbox, then the KV branch, then drop the record. */
    method ReapHalves(op: nat, id: Id) returns (ok: bool, freed: nat)
      requires Ready() && KillAt(s, op, ReapSandbox) && s.ops == map[op := s.ops[op]] && s.ops[op].id == id
      requires s.spawning == {} && s.killing == {id}
      modifies this`s, this`trace, this`tried, kv, world
      ensures Ready() && s.ops == map[] && s.spawning == {} && s.killing == {} && tried == old(tried)
      ensures ok ==> Gone(old(s), s, old(kv.live), kv.live, {id}) && s.life == old(s.life)
      ensures world.raised >= old(world.raised) && (ok <==> world.raised == old(world.raised))
      ensures ok ==> freed == Freed(old(kv.live), id)
      ensures ok ==> kv.stats.resident == old(kv.stats.resident) - freed
      ensures !ok ==> s.mem == old(s.mem) && s.loaded == old(s.loaded) && s.life == Failed(old(s), old(s).ops[op].sweep).life
      ensures !ok ==> old(s.sandbox) - {id} <= s.sandbox <= old(s.sandbox)
      ensures !ok ==> kv.live == old(kv.live) || kv.live == old(kv.live) - {id}
    {
      hide Inv, Traced, Enabled, Recreates, Next, Attempt, BranchTrie.Exclusive, CacheState.Sound, TreeKVCache.Valid;
      freed := 0;
      var sandboxOk, effect := world.Call();
      KillSteps(s, KillSandbox(op, sandboxOk, effect));
      Take(KillSandbox(op, sandboxOk, effect));
      if !sandboxOk {
        KillSteps(s, GiveUp(op));
        Take(GiveUp(op));
        return false, 0;
      }
      ok, freed := ReapKvHalf(op, id);
    }

    /** The same from the KV branch on. */
    method ReapKvHalf(op: nat, id: Id) returns (ok: bool, freed: nat)
      requires Ready() && KillAt(s, op, ReapKv) && s.ops == map[op := s.ops[op]] && s.ops[op].id == id
      requires s.spawning == {} && s.killing == {id}
      modifies this`s, this`trace, this`tried, kv, world
      ensures Ready() && s.ops == map[] && s.spawning == {} && s.killing == {} && tried == old(tried)
      ensures ok ==> s.mem == old(s.mem) - {id} && s.loaded == old(s.loaded) - {id} && s.life == old(s.life)
      ensures world.raised >= old(world.raised) && (ok <==> world.raised == old(world.raised))
      ensures s.sandbox == old(s.sandbox) && kv.live == old(kv.live) - {id}
      ensures freed == Freed(old(kv.live), id) && kv.stats.resident == old(kv.stats.resident) - freed
      ensures !ok ==> s.mem == old(s.mem) && s.loaded == old(s.loaded) && s.life == Failed(old(s), old(s).ops[op].sweep).life
    {
      hide Inv, Traced, Enabled, Recreates, Next, Attempt, BranchTrie.Exclusive, CacheState.Sound, TreeKVCache.Valid;
      KvKeys();
      freed := kv.Kill(id);
      KillSteps(s, KillKv(op, true, true));
      Take(KillKv(op, true, true));
      var effect;
      ok, effect := world.Call();
      KillSteps(s, Finish(op, ok));
      Take(Finish(op, ok));
    }

    /** `kill`: reaps both halves, or fails and leaves the record for `reconcile`. */
    method Kill(id: Id) returns (r: Outcome<Receipt>)
      requires Valid()
      modifies this`s, this`trace, this`tried, kv, world
      ensures Valid() && Touched(old(s), s, {id}) && Thinned(old(kv.live), kv.live, {id})
      ensures !old(s.life).Open? ==> r == RuntimeError && s == old(s) && unchanged(kv) && tried == old(tried)
      ensures old(s.life).Open? && id !in old(s.mem) ==>
                r == Ok(Receipt(id, 0, false)) && s == old(s) && unchanged(kv) && tried == old(tried)
      ensures old(s.life).Open? && id in old(s.mem) ==>
                tried == old(tried) + [id] && (r == BackendError || r == Ok(Receipt(id, Freed(old(kv.live), id), true)))
      ensures r.Ok? ==> Gone(old(s), s, old(kv.live), kv.live, {id})
      ensures r.Ok? ==> kv.stats.resident == old(kv.stats.resident) - r.value.freed
      ensures r == BackendError ==> id in s.mem && id in old(s.mem)
      ensures world.raised >= old(world.raised) && (r == BackendError <==> world.raised > old(world.raised))
    {
      hide Inv, Traced, Enabled, Recreates, Next, Attempt, BranchTrie.Exclusive, CacheState.Sound, TreeKVCache.Valid;
      if !s.life.Open? {
        return RuntimeError;
      }
      if id !in s.mem || id in s.killing || id in s.spawning {
        KvRecorded(s);
        return Ok(Receipt(id, 0, false));
      }
      var journaled, _ := world.Call();
      KillStart(s, 0, id, journaled);
      Take(Label.Kill(0, id, journaled));
      if !journaled {
        return BackendError;
      }
      var ok, freed := ReapHalves(0, id);
      r := if ok then Ok(Receipt(id, freed, true)) else BackendError;
    }

    /** `_fan_out` of `kill`: every branch is attempted once, whatever the others do. */
    method KillEach(ids: seq<Id>) returns (receipts: seq<Receipt>, failed: bool)
      requires Valid() && s.life.Open? && Distinct(ids) && Elements(ids) <= s.mem.Keys
      modifies this`s, this`trace, this`tried, kv, world
      ensures Valid() && Touched(old(s), s, Elements(ids)) && Thinned(old(kv.live), kv.live, Elements(ids))
      ensures tried == old(tried) + ids
      ensures failed ==> exists x :: x in ids && x in s.mem
      ensures world.raised >= old(world.raised) && (failed <==> world.raised > old(world.raised))
      ensures !failed ==>
                && Receipted(receipts, ids)
                && Gone(old(s), s, old(kv.live), kv.live, Elements(ids))
                && kv.stats.resident == old(kv.stats.resident) - Total(receipts)
    {
      hide Inv, Traced, BranchTrie.Exclusive, CacheState.Sound, TreeKVCache.Valid, Touched, Thinned, Gone, Freed, Swept, Distinct;
      receipts, failed := [], false;
      SweptNone(s, kv.live);
      assert ids[..0] == [];
      ghost var left := "";
      var i := 0;
      while i < |ids|
        invariant 0 <= i <= |ids| && Valid() && s.life.Open? && tried == old(tried) + ids[..i]
        invariant Swept(old(s), s, old(kv.live), kv.live, ids[..i], receipts, failed, old(kv.stats.resident) - kv.stats.resident)
        invariant forall x | x in ids[i..] :: x in s.mem
        invariant failed ==> left in ids[..i] && left in s.mem
        invariant world.raised >= old(world.raised) && (failed <==> world.raised > old(world.raised))
      {
        ghost var was, live, spent := s, kv.live, old(kv.stats.resident) - kv.stats.resident;
        var r := Kill(ids[i]);
        SweptMore(old(s), was, s, old(kv.live), live, kv.live, ids[..i], receipts, failed, spent, ids[i], r);
        ElementsStep(ids, i);
        forall x | x in was.mem && x != ids[i] ensures x in s.mem { TouchedAt(was, s, {ids[i]}, x); }
        if r.Ok? {
          receipts := receipts + [r.value];
        } else {
          failed, left := true, ids[i];
        }
        i := i + 1;
      }
      assert ids[..i] == ids;
      SweptParts(old(s), s, old(kv.live), kv.live, ids, receipts, failed, old(kv.stats.resident) - kv.stats.resident);
    }

    /** The ancestor walk of `kill_losers`; it ends even if reused ids make the parents cyclic. */
    method KeepLine(winner: Id) returns (keep: set<Id>)
      ensures forall x :: x in keep <==> InLine(s.mem, winner, x)
    {
      keep := {};
      var cursor := Some(winner);
      LineStart(s.mem, winner);
      while cursor.Some? && cursor.value !in keep
        invariant winner in keep || cursor == Some(winner)
        invariant cursor.Some? ==> InLine(s.mem, winner, cursor.value)
        invariant forall x | x in keep :: InLine(s.mem, winner, x)
        invariant forall x | x in keep && x in s.mem && s.mem[x].parent.Some? :: s.mem[x].parent.value in keep || s.mem[x].parent == cursor
        decreases |s.mem.Keys - keep|, if cursor.Some? then 1 else 0
      {
        var x := cursor.value;
        ghost var left := s.mem.Keys - keep;
        keep := keep + {x};
        if x in s.mem {
          assert s.mem.Keys - keep == left - {x} && x in left;
          if s.mem[x].parent.Some? { LineStep(s.mem, winner, x, s.mem[x].parent.value); }
        } else {
          assert s.mem.Keys - keep == left;
        }
        cursor := if x in s.mem then s.mem[x].parent else None;
      }
      forall x | InLine(s.mem, winner, x) ensures x in keep {
        var k: nat :| Ascend(s.mem, winner, k) == Some(x);
        LineInside(s.mem, winner, keep, k);
      }
    }

    /** `kill_losers`: everything outside the winner's line goes, with one receipt each. */
    method KillLosers(winner: Id) returns (r: Outcome<seq<Receipt>>)
      requires Valid()
      modifies this`s, this`trace, this`tried, kv, world
      ensures Valid()
      ensures Touched(old(s), s, Losers(old(s.mem), winner)) && Thinned(old(kv.live), kv.live, Losers(old(s.mem), winner))
      ensures !old(s.life).Open? ==> r == RuntimeError && s == old(s) && unchanged(kv)
      ensures old(s.life).Open? && !LiveRecord(old(s), winner) ==> r == KeyError && s == old(s) && unchanged(kv)
      ensures old(s.life).Open? && LiveRecord(old(s), winner) ==>
                (r.Ok? || r == BackendError) && TriedOnce(old(tried), tried, Losers(old(s.mem), winner))
      ensures r.Ok? ==> Gone(old(s), s, old(kv.live), kv.live, Losers(old(s.mem), winner))
      ensures world.raised >= old(world.raised) && (r == BackendError <==> world.raised > old(world.raised))
      ensures r.Ok? ==> OneReceiptEach(r.value, Losers(old(s.mem), winner))
      ensures r.Ok? ==> kv.stats.resident == old(kv.stats.resident) - Total(r.value)
    {
      hide Inv, Traced, BranchTrie.Exclusive, CacheState.Sound, TreeKVCache.Valid, Thinned, Gone, InLine, OneReceiptEach, Receipted;
      TouchedEmpty(s, Losers(s.mem, winner));
      ThinnedEmpty(kv.live, Losers(s.mem, winner));
      if !s.life.Open? {
        return RuntimeError;
      }
      if !LiveRecord(s, winner) {
        return KeyError;
      }
      var keep := KeepLine(winner);
      var losers := Listed(s.mem.Keys - keep);
      assert s.mem.Keys - keep == Losers(s.mem, winner);
      var receipts, failed := KillEach(losers);
      assert tried[|old(tried)|..] == losers;
      if failed {
        return BackendError;
      }
      ReceiptedCovers(receipts, losers);
      r := Ok(receipts);
    }

    /** `reap_expired`: exactly the branches whose lease has lapsed go. */
    method ReapExpired(now: int) returns (r: Outcome<seq<Receipt>>)
      requires Valid()
      modifies this`s, this`trace, this`tried, kv, world
      ensures Valid() && s.life == old(s.life) && s.loaded <= old(s.loaded)
      ensures !old(s.life).Open? ==> r == RuntimeError && s == old(s) && unchanged(kv)
      ensures old(s.life).Open? ==> r.Ok? || r == BackendError
      ensures world.raised >= old(world.raised) && (r == BackendError <==> world.raised > old(world.raised))
      ensures r.Ok? ==> forall x :: x in s.mem <==> x in old(s.mem) && (old(s.mem)[x].lease.None? || now < old(s.mem)[x].lease.value)
      ensures forall x | x in old(s.mem) && (old(s.mem)[x].lease.None? || now < old(s.mem)[x].lease.value) :: x in s.mem && s.mem[x] == old(s.mem)[x]
      ensures r.Ok? ==> OneReceiptEach(r.value, old(s.mem).Keys - s.mem.Keys)
      ensures r.Ok? ==> kv.stats.resident == old(kv.stats.resident) - Total(r.value)
    {
      hide Inv, Traced, BranchTrie.Exclusive, CacheState.Sound, TreeKVCache.Valid, Thinned, Receipted, OneReceiptEach;
      if !s.life.Open? {
        return RuntimeError;
      }
      var ids := Listed(set x | x in s.mem && Expired(s.mem[x], now) && x !in s.spawning);
      var receipts, failed := KillEach(ids);
      if failed {
        return BackendError;
      }
      ReceiptedCovers(receipts, ids);
      assert Elements(ids) == old(s.mem).Keys - s.mem.Keys;
      r := Ok(receipts);
    }

    /** `reconcile`: exactly the healthy branches stay, and each other one is attempted
        once even if earlier kills raise. */
    method Reconcile(now: int) returns (r: Outcome<seq<Receipt>>)
      requires Valid()
      modifies this`s, this`trace, this`tried, kv, world
      ensures Valid() && s.life == old(s.life) && s.loaded <= old(s.loaded)
      ensures !old(s.life).Open? ==> r == RuntimeError && s == old(s) && unchanged(kv)
      ensures old(s.life).Open? ==> r.Ok? || r == BackendError
      ensures old(s.life).Open? ==>
                TriedOnce(old(tried), tried, Unhealthy(old(s), now))
      ensures world.raised >= old(world.raised) && (r == BackendError <==> world.raised > old(world.raised))
      ensures r.Ok? ==> OneReceiptEach(r.value, old(s.mem).Keys - s.mem.Keys) && kv.stats.resident == old(kv.stats.resident) - Total(r.value)
      ensures r.Ok? ==> forall x :: x in s.mem <==>
                && x in old(s.mem) && old(s.mem)[x].phase == Live && x !in old(s.loaded)
                && (old(s.mem)[x].lease.None? || now < old(s.mem)[x].lease.value)
      ensures r.Ok? ==> s.sandbox == old(s.sandbox) * s.mem.Keys && kv.live.Keys == old(kv.live).Keys * s.mem.Keys
      ensures forall x | Healthy(old(s), now, x) :: x in s.mem && s.mem[x] == old(s.mem)[x]
      ensures forall x | Healthy(old(s), now, x) && x in old(kv.live) :: x in kv.live && kv.live[x] == old(kv.live)[x]
    {
      hide Inv, Traced, BranchTrie.Exclusive, CacheState.Sound, TreeKVCache.Valid, Receipted, OneReceiptEach, Healthy, Gone, Touched, Thinned;
      if !s.life.Open? {
        TouchedEmpty(s, Unhealthy(s, now));
        ThinnedEmpty(kv.live, Unhealthy(s, now));
        CollectKeeps(s, s, kv.live, kv.live, now);
        return RuntimeError;
      }
      KvRecorded(s);
      var stuck := set x | x in s.mem && s.mem[x].phase != Live && x !in s.spawning && x !in s.killing;
      stuck := stuck + set x | x in s.loaded && x !in stuck && x !in s.spawning && x !in s.killing;
      var expired := set x | x in s.mem && Expired(s.mem[x], now) && x !in s.spawning && x !in s.killing && x !in stuck;
      CollectSets(s, now, stuck, expired);
      var first := Listed(stuck);
      var second := Listed(expired);
      Joined(first, second);
      var receipts, failed := KillEach(first + second);
      assert tried[|old(tried)|..] == first + second;
      CollectKeeps(old(s), s, old(kv.live), kv.live, now);
      if failed {
        return BackendError;
      }
      CollectedExactly(old(s), s, old(kv.live), kv.live, now);
      ReceiptedCovers(receipts, first + second);
      r := Ok(receipts);
    }

    /** `renew_lease`. */
    method RenewLease(id: Id, lease: int, now: int) returns (r: Outcome<Record>)
      requires Valid()
      modifies this`s, this`trace, this`tried, world
      ensures Valid() && s == old(s).(mem := s.mem, disk := s.disk) && s.disk == s.mem
      ensures !old(s.life).Open? ==> r == RuntimeError
      ensures old(s.life).Open? && !LiveRecord(old(s), id) ==> r == KeyError
      ensures old(s.life).Open? && LiveRecord(old(s), id) && lease <= 0 ==> r == ValueError
      ensures old(s.life).Open? && LiveRecord(old(s), id) && lease > 0 ==>
                r == BackendError || (r == Ok(old(s.mem)[id].(lease := Some(now + lease))) && s.mem == old(s.mem)[id := r.value])
      ensures !r.Ok? ==> s.mem == old(s.mem)
      ensures world.raised >= old(world.raised) && (r == BackendError <==> world.raised > old(world.raised))
    {
      hide Traced, BranchTrie.Exclusive, CacheState.Sound, TreeKVCache.Valid, Exclusive, InFlight, OpsOk, Accounted, ClosingOk;
      if !s.life.Open? {
        return RuntimeError;
      }
      if !LiveRecord(s, id) {
        return KeyError;
      }
      if lease <= 0 {
        return ValueError;
      }
      var ok, _ := world.Call();
      Take(Renew(id, now + lease, ok));
      r := if ok then Ok(s.mem[id]) else BackendError;
    }

    /** `extend`: only a live branch, and only its own sequence; charged is what was not cached. */
    method Extend(id: Id, tokens: seq<RadixForest.Token>) returns (r: Outcome<nat>)
      requires Valid()
      modifies kv
      ensures Valid()
      ensures !s.life.Open? ==> r == RuntimeError
      ensures s.life.Open? && (!LiveRecord(s, id) || id !in old(kv.live)) ==> r == KeyError
      ensures s.life.Open? && LiveRecord(s, id) && id in old(kv.live) ==>
                var p := RadixForest.Pos(old(kv.live)[id].ns, old(kv.live)[id].path + tokens);
                if Admits(BranchTrie.Cached(old(kv.live)), p, kv.capacity, kv.budget)
                then r == Ok(|p.path| - BranchTrie.Longest(old(kv.live), p.ns, p.path)) && kv.live == old(kv.live)[id := p]
                else r == MemoryError
      ensures !r.Ok? ==> kv.live == old(kv.live)
    {
      hide Inv, Traced, BranchTrie.Longest, PinnedWalks.CachedIn, CacheState.Sound, TreeKVCache.Valid;
      if !s.life.Open? {
        return RuntimeError;
      }
      if !LiveRecord(s, id) {
        return KeyError;
      }
      KvKeys();
      ResidentIs(kv);
      r := kv.Extend(id, tokens);
      if id in old(kv.live) { AdmitsIs(old(kv.live), old(kv.live)[id].ns, old(kv.live)[id].path + tokens, kv.capacity, kv.budget); }
    }

    /** `_rollback_branch` and the `finally` that clears the spawn. */
    method Rollback(op: nat, id: Id)
      requires Ready() && SpawnAt(s, op, RollKv) && s.ops[op].id == id
      modifies this`s, this`trace, this`tried, kv, world
      ensures Ready() && s.ops == old(s.ops) - {op} && s.spawning == old(s.spawning) - {id} && tried == old(tried)
      ensures Unrolled(old(s), s, id, world.raised == old(world.raised)) && kv.live == old(kv.live) - {id}
      ensures s.mem == if world.raised == old(world.raised) then old(s.mem) - {id} else old(s.mem)
      ensures world.raised >= old(world.raised)
    {
      hide Inv, Traced, Enabled, Recreates, Next, Attempt, BranchTrie.Exclusive, CacheState.Sound, TreeKVCache.Valid;
      SpawnFacts(s, op);
      RollbackKvHalf(op, id);
      var ok, effect := world.Call();
      SpawnSteps(s, RollbackSandbox(op, ok, effect), id);
      Take(RollbackSandbox(op, ok, effect));
      if ok {
        ForgetSpawn(op, id);
      }
      SpawnSteps(s, Finally(op), id);
      Take(Finally(op));
    }

    /** Kill the KV branch of a creation that failed. */
    method RollbackKvHalf(op: nat, id: Id)
      requires Ready() && SpawnAt(s, op, RollKv) && s.ops[op].id == id
      modifies this`s, this`trace, this`tried, kv
      ensures Ready() && kv.live == old(kv.live) - {id} && tried == old(tried)
      ensures s == old(s).(kv := s.kv, ops := old(s.ops)[op := old(s.ops)[op].(spawn := RollSandbox(false))])
    {
      hide Inv, Traced, BranchTrie.Exclusive, CacheState.Sound, TreeKVCache.Valid;
      KvKeys();
      var freed := kv.Kill(id);
      Take(RollbackKv(op, true, true));
    }

    /** Drop the record of a creation whose halves are both cleaned up. */
    method ForgetSpawn(op: nat, id: Id)
      requires Ready() && SpawnAt(s, op, RollForget) && s.ops[op].id == id
      modifies this`s, this`trace, this`tried, world
      ensures Ready() && s.ops == old(s.ops)[op := old(s.ops)[op].(spawn := Unwind)] && tried == old(tried)
      ensures world.raised >= old(world.raised)
      ensures s == old(s).(ops := s.ops, mem := s.mem, disk := s.disk)
      ensures s.mem == if world.raised == old(world.raised) then old(s.mem) - {id} else old(s.mem)
    {
      hide Inv, Traced, BranchTrie.Exclusive, CacheState.Sound, TreeKVCache.Valid;
      SpawnFacts(s, op);
      var ok, _ := world.Call();
      Take(RollbackForget(op, ok));
    }

    /** Enter the live state, or roll back. */
    method Settle(op: nat, id: Id, ready: bool) returns (ok: bool)
      requires Ready() && SpawnAt(s, op, CommitLive) && s.ops[op].id == id
      requires s.ops[op].parent.Some? ==> LiveRecord(s, s.ops[op].parent.value)
      modifies this`s, this`trace, this`tried, kv, world
      ensures Ready() && s.ops == old(s.ops) - {op} && s.spawning == old(s.spawning) - {id} && tried == old(tried)
      ensures ok ==> ready && kv.live == old(kv.live)
      ensures ok ==> id in old(s.mem) && s.mem == old(s.mem)[id := old(s.mem)[id].(phase := Live)]
      ensures ok ==> s.loaded == old(s.loaded) && s.life == old(s.life) && s.killing == old(s.killing) && s.sandbox == old(s.sandbox)
      ensures !ok ==> Unrolled(old(s), s, id, world.raised == old(world.raised)) && kv.live == old(kv.live) - {id}
      ensures world.raised >= old(world.raised) && (ok <==> ready && world.raised == old(world.raised))
    {
      hide Inv, Traced, Enabled, Recreates, Next, Attempt, BranchTrie.Exclusive, CacheState.Sound, TreeKVCache.Valid;
      ok := false;
      if ready {
        var persisted, _ := world.Call();
        ok := persisted;
        CommitStep(s, op, id, ok);
        Take(Commit(op, ok));
      } else {
        SpawnSteps(s, NotReady(op), id);
        Take(NotReady(op));
      }
      if ok {
        SpawnSteps(s, Finally(op), id);
        Take(Finally(op));
      } else {
        Rollback(op, id);
      }
    }

    /** `spawn_one`: fork the KV branch, spawn the sandbox, go live; or roll back. */
    method SpawnOne(op: nat, id: Id, parent: Id) returns (ok: bool)
      requires Ready() && SpawnAt(s, op, CreateKv) && s.ops[op].id == id && s.ops[op].parent == Some(parent)
      requires LiveRecord(s, parent) && id != "" && id !in kv.live
      modifies this`s, this`trace, this`tried, kv, world
      ensures Ready() && s.ops == old(s.ops) - {op} && s.spawning == old(s.spawning) - {id} && tried == old(tried)
      ensures ok ==> id in old(s.mem) && s.mem == old(s.mem)[id := old(s.mem)[id].(phase := Live)]
      ensures ok ==> parent in old(kv.live) && kv.live == old(kv.live)[id := old(kv.live)[parent]]
      ensures s.killing == old(s.killing) && (ok ==> s.loaded == old(s.loaded) && s.life == old(s.life))
      ensures ok ==> s.sandbox == old(s.sandbox) + {id}
      ensures !ok ==> Unrolled(old(s), s, id, world.raised == old(world.raised)) && kv.live == old(kv.live)
      ensures world.raised >= old(world.raised) && (ok <==> parent in old(kv.live) && world.raised == old(world.raised))
    {
      hide Inv, Traced, Enabled, Recreates, Next, Attempt, BranchTrie.Exclusive, CacheState.Sound, TreeKVCache.Valid;
      SpawnFacts(s, op);
      var forked := ForkKv(op, id, parent);
      if !forked {
        Rollback(op, id);
        return false;
      }
      AppendNothing(kv.live, id);
      ok := SpawnSandboxHalf(op, id, false, []);
    }

    /** The KV half of `spawn_one`.  The cache replaces an empty child id by a name of its
        own, so the registry and the cache agree afterwards exactly if the id is not empty. */
    method ForkKv(op: nat, id: Id, parent: Id) returns (ok: bool)
      requires Ready() && SpawnAt(s, op, CreateKv) && s.ops[op].id == id && id !in kv.live
      modifies this`s, this`trace, this`tried, kv
      ensures tried == old(tried)
      ensures s == old(s).(kv := s.kv, ops := old(s.ops)[op := old(s.ops)[op].(spawn := if ok then SpawnSandbox else RollKv)])
      ensures ok <==> parent in old(kv.live) && (if id != "" then id else parent + "/" + Decimal(old(kv.childSeq) + 1)) !in old(kv.live)
      ensures kv.live == if ok then old(kv.live)[(if id != "" then id else parent + "/" + Decimal(old(kv.childSeq) + 1)) := old(kv.live)[parent]]
                         else old(kv.live)
      ensures Ready() <==> !ok || id != ""
    {
      hide Inv, Traced, CacheState.Sound, TreeKVCache.Valid;
      KvKeys();
      var forked := kv.ForkBranch(parent, Some(id));
      ok := forked.Ok?;
      Take(KvCreate(op, ok, false));
      assert ok ==> s.kv == old(kv.live).Keys + {id};
    }

    /** Spawn the sandbox of a branch whose KV half exists, wait for it, append tokens, go live. */
    method SpawnSandboxHalf(op: nat, id: Id, root: bool, tokens: seq<RadixForest.Token>) returns (ok: bool)
      requires Ready() && SpawnAt(s, op, SpawnSandbox) && s.ops[op].id == id && id in kv.live
      requires s.ops[op].parent.Some? ==> LiveRecord(s, s.ops[op].parent.value)
      modifies this`s, this`trace, this`tried, kv, world
      ensures Ready() && s.ops == old(s.ops) - {op} && s.spawning == old(s.spawning) - {id} && tried == old(tried)
      ensures ok ==> id in old(s.mem) && s.mem == old(s.mem)[id := old(s.mem)[id].(phase := Live)]
      ensures ok ==> kv.live == old(kv.live)[id := RadixForest.Pos(old(kv.live)[id].ns, old(kv.live)[id].path + tokens)]
      ensures s.killing == old(s.killing) && (ok ==> s.loaded == old(s.loaded) && s.life == old(s.life))
      ensures ok ==> s.sandbox == old(s.sandbox) + {id}
      ensures !ok ==> Unrolled(old(s), s, id, world.raised == old(world.raised)) && kv.live == old(kv.live) - {id}
      ensures world.raised >= old(world.raised)
      ensures ok <==> world.raised == old(world.raised) && (tokens == [] || Admitted(kv, old(kv.live), id, tokens))
    {
      hide Inv, Traced, Enabled, Recreates, Next, Attempt, BranchTrie.Exclusive, BranchTrie.Longest;
      hide PinnedWalks.CachedIn, CacheState.Sound, TreeKVCache.Valid;
      var up, effect := world.Call();
      SpawnSteps(s, SandboxSpawn(op, up, effect), id);
      Take(SandboxSpawn(op, up, effect));
      if !up {
        Rollback(op, id);
        return false;
      }
      var committed := true;
      if root {
        committed, effect := world.Call();
      }
      if committed {
        committed := Prefill(id, tokens);
      }
      ok := Settle(op, id, committed);
    }

    method Prefill(id: Id, tokens: seq<RadixForest.Token>) returns (ok: bool)
      requires kv.Valid() && id in kv.live
      modifies kv
      ensures kv.Valid() && kv.live.Keys == old(kv.live).Keys
      ensures kv.live == if ok then old(kv.live)[id := RadixForest.Pos(old(kv.live)[id].ns, old(kv.live)[id].path + tokens)]
                         else old(kv.live)
      ensures ok <==> tokens == [] || Admitted(kv, old(kv.live), id, tokens)
    {
      hide BranchTrie.Longest, PinnedWalks.CachedIn, CacheState.Sound, TreeKVCache.Valid;
      if tokens == [] {
        AppendNothing(kv.live, id);
        return true;
      }
      KvKeys();
      ResidentIs(kv);
      AdmitsIs(kv.live, kv.live[id].ns, kv.live[id].path + tokens, kv.capacity, kv.budget);
      var charged := kv.Extend(id, tokens);
      ok := charged.Ok?;
    }

    /** `create_parent`: a root goes live with exactly the given tokens, or its KV half is gone again. */
    method CreateParent(id: Id, tokens: seq<RadixForest.Token>, lease: Option<int>, now: int) returns (r: Outcome<Record>)
      requires Valid() && !PinnedWalks.Clobbers(kv.live, id)
      modifies this`s, this`trace, this`tried, kv, world
      ensures Valid() && s.life == old(s.life) && s.loaded == old(s.loaded) && tried == old(tried)
      ensures world.raised >= old(world.raised)
      ensures !old(s.life).Open? ==> r == RuntimeError
      ensures old(s.life).Open? && (id in old(s.mem) || (lease.Some? && lease.value <= 0)) ==> r == ValueError
      ensures r == RuntimeError || r == ValueError ==> s == old(s) && kv.live == old(kv.live) && world.raised == old(world.raised)
      ensures r.Ok? <==>
                && old(s.life).Open? && id !in old(s.mem) && (lease.Some? ==> lease.value > 0)
                && world.raised == old(world.raised)
                && (tokens == [] || Admits(BranchTrie.Cached(old(kv.live)), RadixForest.Pos(id, tokens), kv.capacity, kv.budget))
      ensures r.Ok? ==>
                && r.value == Record(None, Live, if lease.Some? then Some(now + lease.value)
                                                 else if defaultLease.Some? then Some(now + defaultLease.value) else None)
                && s.mem == old(s.mem)[id := r.value] && s.sandbox == old(s.sandbox) + {id}
                && kv.live == old(kv.live)[id := RadixForest.Pos(id, tokens)]
      ensures !r.Ok? ==> kv.live == old(kv.live)
      ensures !r.Ok? ==> s.mem == old(s.mem) || (s.mem - {id} == old(s.mem) && id in s.mem && s.mem[id].phase == Forking)
      ensures !r.Ok? && world.raised == old(world.raised) ==> s.mem == old(s.mem)
    {
      hide Inv, Traced, CacheState.Sound, TreeKVCache.Valid, PinnedWalks.Clobbers, Admits, BranchTrie.Cached;
      if !s.life.Open? {
        return RuntimeError;
      }
      var expiry := LeaseExpiry(lease, defaultLease, now);
      if id in s.mem || expiry == ValueError {
        return ValueError;
      }
      var ok := CreateRoot(id, tokens, expiry.value);
      r := if ok then Ok(s.mem[id]) else BackendError;
    }

    /** Journal the root, then create both halves and go live, or roll back. */
    method CreateRoot(id: Id, tokens: seq<RadixForest.Token>, until: Option<int>) returns (ok: bool)
      requires Valid() && s.life.Open? && id !in s.mem && !PinnedWalks.Clobbers(kv.live, id)
      modifies this`s, this`trace, this`tried, kv, world
      ensures Valid() && s.life == old(s.life) && s.loaded == old(s.loaded) && tried == old(tried) && world.raised >= old(world.raised)
      ensures ok <==> world.raised == old(world.raised)
                      && (tokens == [] || Admits(BranchTrie.Cached(old(kv.live)), RadixForest.Pos(id, tokens), kv.capacity, kv.budget))
      ensures ok ==> s.mem == old(s.mem)[id := Record(None, Live, until)] && s.sandbox == old(s.sandbox) + {id}
      ensures kv.live == if ok then old(kv.live)[id := RadixForest.Pos(id, tokens)] else old(kv.live)
      ensures !ok ==> s.mem == old(s.mem) || (s.mem - {id} == old(s.mem) && id in s.mem && s.mem[id].phase == Forking)
      ensures !ok && world.raised == old(world.raised) ==> s.mem == old(s.mem)
    {
      hide Inv, Traced, Enabled, Recreates, Next, Attempt, BranchTrie.Exclusive, CacheState.Sound, TreeKVCache.Valid, PinnedWalks.Clobbers;
      hide Admits, BranchTrie.Cached;
      KvRecorded(s);
      var journaled, _ := world.Call();
      CreateStart(s, id, until, journaled);
      Take(Create(0, id, until, journaled));
      if !journaled {
        return false;
      }
      ok := BringUp(id, tokens);
    }

    /** Both halves of a journaled root. */
    method BringUp(id: Id, tokens: seq<RadixForest.Token>) returns (ok: bool)
      requires Ready() && s.ops == map[0 := Spawning(id, None, CreateKv)] && id !in kv.live && !PinnedWalks.Clobbers(kv.live, id)
      modifies this`s, this`trace, this`tried, kv, world
      ensures Ready() && s.ops == map[] && s.spawning == old(s.spawning) - {id} && tried == old(tried) && world.raised >= old(world.raised)
      ensures ok <==> world.raised == old(world.raised)
                      && (tokens == [] || Admits(BranchTrie.Cached(old(kv.live)), RadixForest.Pos(id, tokens), kv.capacity, kv.budget))
      ensures s.killing == old(s.killing) && s.loaded == old(s.loaded) && s.life == old(s.life)
      ensures ok ==> id in old(s.mem) && s.mem == old(s.mem)[id := old(s.mem)[id].(phase := Live)] && s.sandbox == old(s.sandbox) + {id}
      ensures kv.live == if ok then old(kv.live)[id := RadixForest.Pos(id, tokens)] else old(kv.live)
      ensures !ok ==> Unrolled(old(s), s, id, world.raised == old(world.raised))
    {
      hide Inv, Traced, BranchTrie.Exclusive, CacheState.Sound, TreeKVCache.Valid, PinnedWalks.Clobbers, Admits, BranchTrie.Cached;
      CreateKvHalf(id);
      EmptyRoot(old(kv.live), id);
      assert [] + tokens == tokens;
      ok := SpawnSandboxHalf(0, id, true, tokens);
    }

    method CreateKvHalf(id: Id)
      requires Ready() && SpawnAt(s, 0, CreateKv) && s.ops == map[0 := Spawning(id, None, CreateKv)] && id !in kv.live
      requires !PinnedWalks.Clobbers(kv.live, id)
      modifies this`s, this`trace, this`tried, kv
      ensures Ready() && tried == old(tried) && kv.live == old(kv.live)[id := RadixForest.Pos(id, [])]
      ensures s == old(s).(kv := s.kv, ops := map[0 := Spawning(id, None, SpawnSandbox)])
    {
      hide Inv, Traced, CacheState.Sound, TreeKVCache.Valid, PinnedWalks.Clobbers;
      KvKeys();
      var made := kv.CreateTree(id);
      Take(KvCreate(0, true, true));
    }

    /** `_next_child_id`: the first unused number after the last one given out. */
    method NextChildId(parent: Id) returns (id: Id)
      modifies this`seqNo
      ensures old(seqNo) < seqNo && id == parent + "/" + Decimal(seqNo) && id !in s.mem
      ensures forall k: nat | old(seqNo) < k < seqNo :: parent + "/" + Decimal(k) in s.mem
    {
      seqNo := seqNo + 1;
      while ChildName(parent, seqNo) in s.mem
        invariant old(seqNo) < seqNo
        invariant forall k: nat | old(seqNo) < k < seqNo :: ChildName(parent, k) in s.mem
        decreases |NamesAhead(s.mem, parent, seqNo - 1)|
      {
        NamesAheadShrink(s.mem, parent, seqNo - 1);
        seqNo := seqNo + 1;
      }
      id := ChildName(parent, seqNo);
      forall k: nat | old(seqNo) < k < seqNo ensures parent + "/" + Decimal(k) in s.mem { assert ChildName(parent, k) in s.mem; }
    }

    /** The ids of the new children: the caller's, if acceptable, or generated ones. */
    method ChooseIds(parent: Id, n: int, childIds: Option<seq<Id>>) returns (r: Outcome<seq<Id>>)
      modifies this`seqNo
      ensures r.Ok? || r == ValueError
      ensures r == ValueError <==>
                childIds.Some? && (|childIds.value| != n || (exists i, j :: 0 <= i < j < |childIds.value| && childIds.value[i] == childIds.value[j])
                                   || exists x :: x in childIds.value && x in s.mem)
      ensures r.Ok? ==> |r.value| == (if n < 0 then 0 else n) && Distinct(r.value) && Elements(r.value) !! s.mem.Keys
      ensures r.Ok? && childIds.Some? ==> r.value == childIds.value
      ensures r.Ok? && childIds.None? ==> "" !in r.value
      ensures r.Ok? && childIds.None? ==> forall x | x in r.value :: Generated(parent, old(seqNo), seqNo, x)
      ensures old(seqNo) <= seqNo
    {
      if childIds.Some? {
        var ok := Acceptable(childIds.value, n, s.mem);
        return if ok then Ok(childIds.value) else ValueError;
      }
      var ids: seq<Id> := [];
      while |ids| < n
        invariant |ids| <= (if n < 0 then 0 else n) && Distinct(ids) && Elements(ids) !! s.mem.Keys && "" !in ids
        invariant old(seqNo) <= seqNo
        invariant forall i | 0 <= i < |ids| :: exists k: nat :: old(seqNo) < k <= seqNo && ids[i] == ChildName(parent, k)
      {
        ghost var last := seqNo;
        var id := NextChildId(parent);
        assert id == ChildName(parent, seqNo);
        forall i | 0 <= i < |ids| ensures ids[i] != id {
          var k: nat :| old(seqNo) < k <= last && ids[i] == ChildName(parent, k);
          if ids[i] == id { ChildNameInjective(parent, k, seqNo); }
        }
        ids := ids + [id];
      }
      forall x | x in ids ensures Generated(parent, old(seqNo), seqNo, x) {
        var i :| 0 <= i < |ids| && ids[i] == x;
        var k: nat :| old(seqNo) < k <= seqNo && ids[i] == ChildName(parent, k);
        assert x == parent + "/" + Decimal(k);
      }
      r := Ok(ids);
    }

    /** `fork`: all children go live, or the failed ones are rolled back without touching anything else. */
    method Fork(parent: Id, n: int, childIds: Option<seq<Id>>, lease: Option<int>, now: int) returns (r: Outcome<seq<Id>>)
      requires Valid() && (childIds.Some? ==> "" !in childIds.value)
      modifies this, kv, world
      ensures Valid() && tried == old(tried)
      ensures !old(s.life).Open? ==> r == RuntimeError && s == old(s) && kv.live == old(kv.live)
      ensures old(s.life).Open? && !LiveRecord(old(s), parent) ==> r == KeyError && s == old(s) && kv.live == old(kv.live)
      ensures r == ValueError <==>
                && old(s.life).Open? && LiveRecord(old(s), parent)
                && (|| (n > 0 && lease.Some? && lease.value <= 0)
                    || (childIds.Some? && (|childIds.value| != n || (exists i, j :: 0 <= i < j < |childIds.value| && childIds.value[i] == childIds.value[j])
                                           || exists x :: x in childIds.value && x in old(s.mem))))
      ensures r == ValueError ==> s == old(s) && kv.live == old(kv.live)
      ensures world.raised >= old(world.raised) && (r == RuntimeError || r == KeyError || r == ValueError ==> world.raised == old(world.raised))
      ensures r == RuntimeError <==> !old(s.life).Open?
      ensures r == KeyError <==> old(s.life).Open? && !LiveRecord(old(s), parent)
      ensures r == BackendError <==>
                && old(s.life).Open? && LiveRecord(old(s), parent) && r != ValueError
                && (world.raised > old(world.raised) || (n > 0 && parent !in old(kv.live)))
      ensures r != MemoryError
      ensures r.Ok? ==>
                && |r.value| == (if n < 0 then 0 else n) && Distinct(r.value) && Elements(r.value) !! old(s.mem).Keys
                && (childIds.Some? ==> r.value == childIds.value)
                && (childIds.None? ==> forall x | x in r.value :: Generated(parent, old(seqNo), seqNo, x))
                && ForkFrame(old(s), s, old(kv.live), kv.live, parent, Elements(r.value))
                && Forked(s, kv.live, parent, if n <= 0 then None else if lease.Some? then Some(now + lease.value)
                                              else if defaultLease.Some? then Some(now + defaultLease.value) else None, Elements(r.value))
      ensures !r.Ok? ==> exists ids :: ids !! old(s.mem).Keys && ForkFrame(old(s), s, old(kv.live), kv.live, parent, ids)
    {
      hide Inv, Traced, BranchTrie.Exclusive, CacheState.Sound, TreeKVCache.Valid, ForkFrame, Forked, Journaled, Acceptable;
      FrameNone(s, kv.live, parent, {});
      if !s.life.Open? {
        return RuntimeError;
      }
      if !LiveRecord(s, parent) {
        return KeyError;
      }
      var chosen := ChooseIds(parent, n, childIds);
      var expiry := LeaseExpiry(lease, defaultLease, now);
      if chosen == ValueError || (n > 0 && expiry == ValueError) {
        return ValueError;
      }
      var ids := chosen.value;
      var until := if n > 0 then expiry.value else None;
      var ok := Spread(parent, ids, until);
      r := if ok then Ok(ids) else BackendError;
    }

    /** Journal the children together, then settle them one by one. */
    method Spread(parent: Id, ids: seq<Id>, lease: Option<int>) returns (ok: bool)
      requires Valid() && s.life.Open? && LiveRecord(s, parent)
      requires Distinct(ids) && Elements(ids) !! s.mem.Keys && "" !in ids
      modifies this`s, this`trace, this`tried, kv, world
      ensures Valid() && tried == old(tried)
      ensures ForkFrame(old(s), s, old(kv.live), kv.live, parent, Elements(ids))
      ensures ok ==> Forked(s, kv.live, parent, lease, Elements(ids))
      ensures world.raised >= old(world.raised)
      ensures ok <==> world.raised == old(world.raised) && (ids == [] || parent in old(kv.live))
    {
      hide Inv, Traced, Enabled, Recreates, Next, Attempt, BranchTrie.Exclusive, CacheState.Sound, TreeKVCache.Valid;
      hide ForkFrame, Forked, Journaled, Unrolled, Waiting;
      var journaled, _ := world.Call();
      ok := journaled;
      KvRecorded(s);
      ForkStart(s, parent, ids, lease, ok);
      FrameNone(s, kv.live, parent, Elements(ids));
      Take(Label.Fork(parent, map o: nat | 0 <= o < |ids| :: ids[o], lease, ok));
      if !ok {
        return;
      }
      FrameStart(old(s), s, kv.live, parent, lease, Elements(ids));
      assert Elements(ids[..0]) == {} && ids[0..] == ids;
      var i := 0;
      while i < |ids|
        invariant 0 <= i <= |ids| && Ready() && tried == old(tried)
        invariant s.ops == Waiting(ids, parent, i) && s.spawning == Elements(ids[i..]) && s.killing == {}
        invariant ForkFrame(old(s), s, old(kv.live), kv.live, parent, Elements(ids))
        invariant Journaled(s, kv.live, parent, lease, Elements(ids[i..]))
        invariant ok ==> Forked(s, kv.live, parent, lease, Elements(ids[..i]))
        invariant world.raised >= old(world.raised) && (ok <==> world.raised == old(world.raised) && (i == 0 || parent in old(kv.live)))
      {
        ghost var was, live := s, kv.live;
        ElementsStep(ids, i);
        WaitingStep(ids, parent, i);
        FrameParts(old(s), s, old(kv.live), kv.live, parent, lease, ids, i);
        ghost var before := world.raised;
        var settled := SpawnOne(i, ids[i], parent);
        ForkSettled(old(s), was, s, old(kv.live), live, kv.live, parent, lease, Elements(ids), Elements(ids[..i]),
                    Elements(ids[i + 1..]), ids[i], settled, world.raised == before);
        ok := ok && settled;
        i := i + 1;
      }
      WaitingNone(ids, parent);
      assert ids[..i] == ids && Elements(ids[i..]) == {};
      FrameLife(old(s), s, old(kv.live), kv.live, parent, Elements(ids));
    }

    /** `close`: refuse new work, sweep every record once, end closed either way. */
    method Close() returns (r: Outcome<()>)
      requires Valid()
      modifies this`s, this`trace, this`tried, kv, world
      ensures Valid() && s.life.Closed? && (r == Ok(()) || r == BackendError)
      ensures old(s.life).Closed? ==> r == Ok(()) && s == old(s) && unchanged(kv)
      ensures old(s.life).Open? ==> TriedOnce(old(tried), tried, old(s.mem).Keys)
      ensures world.raised >= old(world.raised) && (r == BackendError <==> world.raised > old(world.raised))
      ensures old(s.life).Open? && r.Ok? ==>
                && s.mem == map[] && s.disk == map[] && s.sandbox == {}
                && kv.live == map[] && kv.stats.resident == 0
    {
      hide Inv, Traced, BranchTrie.Exclusive, CacheState.Sound, TreeKVCache.Valid;
      if s.life.Closed? {
        return Ok(());
      }
      BeginSweep();
      ghost var before := tried;
      var ids := Listed(s.mem.Keys);
      Sweep(ids);
      assert tried[|before|..] == ids;
      EndSweep();
      if s.life.clean {
        ClosedEmpty(s);
        NothingLeft();
        return Ok(());
      }
      return BackendError;
    }

    /** Set the closing flag; with nothing in flight there is nothing to wait for. */
    method BeginSweep()
      requires Valid() && s.life.Open?
      modifies this`s, this`trace, this`tried
      ensures Ready() && s == old(s).(life := Sweeping(s.mem.Keys, false)) && tried == old(tried)
    {
      hide Inv, Traced, CacheState.Sound, TreeKVCache.Valid;
      Take(BeginClose);
      Take(Drained);
    }

    method EndSweep()
      requires Ready() && s.ops == map[] && s.spawning == {} && s.killing == {} && s.life.Sweeping? && s.life.todo == {}
      modifies this`s, this`trace, this`tried
      ensures Valid() && s.life == Closed(!old(s.life.failed)) && tried == old(tried)
    {
      hide Inv, Traced, CacheState.Sound, TreeKVCache.Valid;
      Take(EndClose);
    }

    /** The final sweep: each record is tried once, whatever the others do. */
    method Sweep(ids: seq<Id>)
      requires Ready() && s.ops == map[] && s.spawning == {} && s.killing == {} && Distinct(ids)
      requires s.life.Sweeping? && s.life.todo == Elements(ids)
      modifies this`s, this`trace, this`tried, kv, world
      ensures Ready() && s.ops == map[] && s.spawning == {} && s.killing == {}
      ensures s.life.Sweeping? && s.life.todo == {} && tried == old(tried) + ids
      ensures world.raised >= old(world.raised) && (s.life.failed <==> old(s.life.failed) || world.raised > old(world.raised))
    {
      hide Inv, Traced, CacheState.Sound, TreeKVCache.Valid;
      var i := 0;
      while i < |ids|
        invariant 0 <= i <= |ids| && Ready() && s.ops == map[] && s.spawning == {} && s.killing == {}
        invariant s.life.Sweeping? && s.life.todo == Elements(ids[i..]) && tried == old(tried) + ids[..i]
        invariant world.raised >= old(world.raised) && (s.life.failed <==> old(s.life.failed) || world.raised > old(world.raised))
      {
        ElementsStep(ids, i);
        SweepOne(ids[i]);
        i := i + 1;
      }
      assert ids[..i] == ids && Elements(ids[i..]) == {};
    }

    lemma NothingLeft()
      requires kv.Valid() && kv.live.Keys == {}
      ensures kv.live == map[] && kv.stats.resident == 0
    {
      hide CacheState.Sound;
      kv.Parts();
      assert kv.live == map[];
      NothingCached(kv.stats, kv.freedTotal, kv.capacity, kv.budget);
    }

    /** One kill of the final sweep. */
    method SweepOne(id: Id)
      requires Ready() && s.ops == map[] && s.spawning == {} && s.killing == {} && s.life.Sweeping? && id in s.life.todo
      modifies this`s, this`trace, this`tried, kv, world
      ensures Ready() && s.ops == map[] && s.spawning == {} && s.killing == {} && tried == old(tried) + [id]
      ensures s.life.Sweeping? && s.life.todo == old(s.life.todo) - {id}
      ensures world.raised >= old(world.raised) && (s.life.failed <==> old(s.life.failed) || world.raised > old(world.raised))
    {
      hide Inv, Traced, BranchTrie.Exclusive, CacheState.Sound, TreeKVCache.Valid;
      SweepRecorded(s);
      var journaled, _ := world.Call();
      Take(SweepKill(0, id, journaled));
      if journaled {
        var ok, freed := ReapHalves(0, id);
      }
    }
  }
}
