/**
What the orchestrator promises over whole runs of the protocol, under every
interleaving, with failing backends, failing persists and crashes.
*/
module ProtocolRuns {
  import opened Common
  import opened Protocol

  /** Every label can be taken when its turn comes, and none re-creates an unwinding id. */
  predicate Legal(s: State, run: seq<Label>)
    decreases |run|
  {
    run == [] || (Enabled(s, run[0]) && !Recreates(s, run[0]) && Legal(Next(s, run[0]), run[1..]))
  }

  /** Legal but for re-creations. */
  predicate Takes(s: State, run: seq<Label>)
    decreases |run|
  {
    run == [] || (Enabled(s, run[0]) && Takes(Next(s, run[0]), run[1..]))
  }

  function After(s: State, run: seq<Label>): State
    requires Takes(s, run)
    decreases |run|
  {
    if run == [] then s else After(Next(s, run[0]), run[1..])
  }

  lemma {:induction false} LegalTakes(s: State, run: seq<Label>)
    requires Legal(s, run)
    ensures Takes(s, run)
    decreases |run|
  {
    if run != [] { LegalTakes(Next(s, run[0]), run[1..]); }
  }

  lemma {:induction false} RunInv(s: State, run: seq<Label>)
    requires Inv(s) && Legal(s, run)
    ensures Takes(s, run) && Inv(After(s, run))
    decreases |run|
  {
    hide Inv, Enabled, Next, Recreates;
    if run != [] {
      StepInv(s, run[0]);
      RunInv(Next(s, run[0]), run[1..]);
    }
  }

  /** Whatever a backend holds is on record, in memory (unless the process is down) and on disk. */
  ghost predicate NothingLeaks(s: State) {
    && s.kv <= s.disk.Keys && s.sandbox <= s.disk.Keys
    && (s.up ==> s.mem == s.disk)
  }

  /** Spawns, rollbacks and kills of one id never overlap. */
  ghost predicate NoOverlap(s: State) {
    forall a, b | a in s.ops && b in s.ops && a != b :: s.ops[a].id != s.ops[b].id
  }

  /** A branch this process made live has both halves, barring outside death. */
  ghost predicate Paired(s: State) {
    forall id | LiveRecord(s, id) && id !in s.loaded :: id in s.kv && (id in s.sandbox || id in s.lost)
  }

  /** Safety of every run. */
  lemma RunSafe(run: seq<Label>)
    requires Legal(INITIAL, run)
    ensures Takes(INITIAL, run)
    ensures NothingLeaks(After(INITIAL, run)) && NoOverlap(After(INITIAL, run)) && Paired(After(INITIAL, run))
  {
    InitialInv();
    RunInv(INITIAL, run);
    InvSafe(After(INITIAL, run));
  }

  lemma InvSafe(s: State)
    requires Inv(s)
    ensures NothingLeaks(s) && NoOverlap(s) && Paired(s)
  {
    hide OpsOk, InFlight, ClosingOk;
  }

  /** A branch this process made live, with parent `p`. */
  ghost predicate LiveChild(s: State, id: Id, p: Id) {
    LiveRecord(s, id) && id !in s.loaded && s.mem[id].parent == Some(p)
  }

  lemma BecomesLive(s: State, l: Label, id: Id, p: Id)
    requires Inv(s) && Enabled(s, l) && LiveChild(Next(s, l), id, p)
    ensures LiveChild(s, id, p) || (l.Commit? && s.ops[l.op].id == id && LiveRecord(s, p) && LiveRecord(Next(s, l), p))
  {
    hide InFlight, Exclusive, Accounted, ClosingOk;
    if l.Commit? {
      assert OpOk(s, s.ops[l.op]);
    }
  }

  /** Somewhere in the run `id` is committed at a moment when the record of `p` is live. */
  predicate CommittedUnder(s: State, run: seq<Label>, id: Id, p: Id)
    requires Takes(s, run)
    decreases |run|
  {
    run != [] && ((run[0].Commit? && s.ops[run[0].op].id == id && LiveRecord(s, p)) || CommittedUnder(Next(s, run[0]), run[1..], id, p))
  }

  lemma {:induction false} LiveWasCommitted(s: State, run: seq<Label>, id: Id, p: Id)
    requires Inv(s) && Legal(s, run) && Takes(s, run) && LiveChild(After(s, run), id, p)
    ensures LiveChild(s, id, p) || CommittedUnder(s, run, id, p)
    decreases |run|
  {
    hide Inv, Next, Recreates, LiveChild;
    if run != [] {
      StepInv(s, run[0]);
      LiveWasCommitted(Next(s, run[0]), run[1..], id, p);
      if LiveChild(Next(s, run[0]), id, p) { BecomesLive(s, run[0], id, p); }
    }
  }

  /** In every run, a branch this process made live was committed while its parent's record was live. */
  lemma LiveUnderLiveParent(run: seq<Label>, id: Id, p: Id)
    requires Legal(INITIAL, run)
    ensures Takes(INITIAL, run)
    ensures LiveChild(After(INITIAL, run), id, p) ==> CommittedUnder(INITIAL, run, id, p)
  {
    InitialInv();
    RunInv(INITIAL, run);
    if LiveChild(After(INITIAL, run), id, p) { LiveWasCommitted(INITIAL, run, id, p); }
  }

  /******* The excluded re-creation *******/

  /** Re-creating an unwinding id always breaks exclusion, so the hypothesis is exact. */
  lemma RecreateExact(s: State, l: Label)
    requires Inv(s) && Enabled(s, l)
    ensures Inv(Next(s, l)) <==> !Recreates(s, l)
    ensures Recreates(s, l) ==> !NoOverlap(Next(s, l))
  {
    if Recreates(s, l) {
      RecreateOverlaps(s, l);
      if Inv(Next(s, l)) { InvSafe(Next(s, l)); }
    } else {
      StepInv(s, l);
    }
  }

  lemma RecreateOverlaps(s: State, l: Label)
    requires Inv(s) && Enabled(s, l) && Recreates(s, l)
    ensures !NoOverlap(Next(s, l))
  {
    hide OpsOk, Accounted, ClosingOk;
    var t := Next(s, l);
    if l.Create? {
      var a :| a in s.ops && s.ops[a].Spawning? && s.ops[a].id == l.id;
      assert t.ops[a].id == t.ops[l.op].id && a != l.op;
    } else {
      var id :| id in l.spawns.Values * s.spawning;
      var a :| a in s.ops && s.ops[a].Spawning? && s.ops[a].id == id;
      var b :| b in l.spawns && l.spawns[b] == id;
      assert a !in l.spawns && t.ops[a] == s.ops[a] && t.ops[b].id == id;
    }
  }

  /** The failed creation of "a" is forgotten, "a" is created again, and only then
      does the first creation finish. */
  const HAZARD: seq<Label> := [
    Create(0, "a", None, true), KvCreate(0, false, false), RollbackKv(0, true, true), RollbackSandbox(0, true, true),
    RollbackForget(0, true), Create(1, "a", None, true), Finally(0), KvCreate(1, true, true),
    Kill(2, "a", true), KillSandbox(2, true, true), KillKv(2, true, true), Finish(2, true),
    SandboxSpawn(1, true, true), Crash({}, {"a"})]

  lemma StepTakes(s: State, run: seq<Label>, k: nat)
    requires k < |run| && Enabled(s, run[k]) && Takes(Next(s, run[k]), run[k + 1..])
    ensures Takes(s, run[k..]) && After(s, run[k..]) == After(Next(s, run[k]), run[k + 1..])
    ensures Legal(s, run[k..]) ==> !Recreates(s, run[k]) && Legal(Next(s, run[k]), run[k + 1..])
  {
    assert run[k..][0] == run[k] && run[k..][1..] == run[k + 1..];
  }

  /** The record of the second creation is gone while its spawn still runs. */
  lemma HazardCrash(s: State)
    requires s == State(true, map[], map[], {}, {}, {}, Open, map[1 := Spawning("a", None, SpawnSandbox)], {}, {}, {})
    ensures Takes(s, HAZARD[12..])
    ensures After(s, HAZARD[12..]) == State(false, map[], map[], {}, {}, {}, Open, map[], {}, {"a"}, {})
  {
    hide Takes, After, Legal;
    var s13 := Next(s, HAZARD[12]);
    var s14 := Next(s13, HAZARD[13]);
    assert s14 == State(false, map[], map[], {}, {}, {}, Open, map[], {}, {"a"}, {});
    TakesNone(s14, HAZARD);
    StepTakes(s13, HAZARD, 13);
    StepTakes(s, HAZARD, 12);
  }

  /** The second kill step finishes although the spawn still runs. */
  lemma HazardForgets(s: State)
    requires s.up && s.mem == map["a" := Record(None, Killing, None)] && s.life == Open && s.lost == {} && s.sandbox == {}
    requires s.ops == map[1 := Spawning("a", None, SpawnSandbox), 2 := Reaping("a", ReapKv, false)]
    requires s.spawning == {} && s.killing == {"a"} && s.loaded == {} && s.kv == {"a"}
    ensures Takes(s, HAZARD[10..])
    ensures After(s, HAZARD[10..]) == State(false, map[], map[], {}, {}, {}, Open, map[], {}, {"a"}, {})
  {
    hide Takes, After, Legal;
    var one := Spawning("a", None, SpawnSandbox);
    var s11 := Next(s, HAZARD[10]);
    assert s11.ops == map[1 := one, 2 := Reaping("a", ForgetRecord, false)];
    var s12 := Next(s11, HAZARD[11]);
    assert s12.ops == map[1 := one];
    HazardCrash(s12);
    StepTakes(s11, HAZARD, 11);
    StepTakes(s, HAZARD, 10);
  }

  /** The kill that the reused id lets through. */
  lemma HazardKill(s: State)
    requires var killing := map["a" := Record(None, Killing, None)];
             s == State(true, killing, killing, {}, {"a"}, {}, Open,
                        map[1 := Spawning("a", None, SpawnSandbox), 2 := Reaping("a", ReapSandbox, false)], {"a"}, {}, {})
    ensures Takes(s, HAZARD[9..])
    ensures After(s, HAZARD[9..]) == State(false, map[], map[], {}, {}, {}, Open, map[], {}, {"a"}, {})
  {
    hide Takes, After, Legal;
    var s10 := Next(s, HAZARD[9]);
    assert s10.ops == map[1 := Spawning("a", None, SpawnSandbox), 2 := Reaping("a", ReapKv, false)];
    HazardForgets(s10);
    StepTakes(s, HAZARD, 9);
  }

  /** After the first creation has forgotten its record, "a" may be created again at once. */
  lemma HazardTail(s: State)
    requires s == State(true, map[], map[], {"a"}, {}, {}, Open, map[0 := Spawning("a", None, Unwind)], {}, {}, {})
    ensures Takes(s, HAZARD[5..]) && !Legal(s, HAZARD[5..])
    ensures After(s, HAZARD[5..]) == State(false, map[], map[], {}, {}, {}, Open, map[], {}, {"a"}, {})
  {
    hide Takes, After, Legal;
    var forking := map["a" := Record(None, Forking, None)];
    var s6 := Next(s, HAZARD[5]);
    assert s6.ops == map[0 := Spawning("a", None, Unwind), 1 := Spawning("a", None, CreateKv)];
    var s7 := Next(s6, HAZARD[6]);
    assert s7 == State(true, forking, forking, {}, {}, {}, Open, map[1 := Spawning("a", None, CreateKv)], {}, {}, {});
    var s8 := Next(s7, HAZARD[7]);
    var s9 := Next(s8, HAZARD[8]);
    HazardKill(s9);
    StepTakes(s8, HAZARD, 8);
    StepTakes(s7, HAZARD, 7);
    StepTakes(s6, HAZARD, 6);
    StepTakes(s, HAZARD, 5);
  }

  lemma TakesNone(s: State, run: seq<Label>)
    ensures Takes(s, run[|run|..]) && After(s, run[|run|..]) == s
  {
  }

  /** The hypothesis is needed: without it a crash can leave a sandbox nobody recorded. */
  lemma HazardLeaks()
    ensures Takes(INITIAL, HAZARD) && !Legal(INITIAL, HAZARD)
    ensures After(INITIAL, HAZARD).sandbox == {"a"} && After(INITIAL, HAZARD).disk == map[]
  {
    hide Takes, After, Legal;
    var s1 := Next(INITIAL, HAZARD[0]);
    var s2 := Next(s1, HAZARD[1]);
    var s3 := Next(s2, HAZARD[2]);
    var s4 := Next(s3, HAZARD[3]);
    var s5 := Next(s4, HAZARD[4]);
    assert s5 == State(true, map[], map[], {"a"}, {}, {}, Open, map[0 := Spawning("a", None, Unwind)], {}, {}, {});
    HazardTail(s5);
    StepTakes(s4, HAZARD, 4);
    StepTakes(s3, HAZARD, 3);
    StepTakes(s2, HAZARD, 2);
    StepTakes(s1, HAZARD, 1);
    StepTakes(INITIAL, HAZARD, 0);
    assert HAZARD[0..] == HAZARD;
  }

  /******* Closing *******/

  /** The steps an operation has left at most. */
  function Left(o: Op): (n: nat) {
    match o
    case Spawning(_, _, step) =>
      (match step
       case CreateKv => 7
       case SpawnSandbox => 6
       case CommitLive => 5
       case RollKv => 4
       case RollSandbox(_) => 3
       case RollForget => 2
       case Unwind => 1)
    case Reaping(_, step, _) =>
      (match step
       case ReapSandbox => 4
       case ReapKv => 3
       case ForgetRecord => 2
       case Abandon => 1)
  }


  /** The steps all operations in flight have left at most. */
  ghost function Work(ops: map<nat, Op>): (n: nat)
    decreases |ops|
  {
    if forall a: nat :: a !in ops then 0
    else
      var a: nat :| a in ops;
      Left(ops[a]) + Work(ops - {a})
  }

  lemma {:induction false} WorkWithout(ops: map<nat, Op>, a: nat)
    requires a in ops
    ensures Work(ops) == Left(ops[a]) + Work(ops - {a})
    decreases |ops|
  {
    var b: nat :| b in ops && Work(ops) == Left(ops[b]) + Work(ops - {b});
    if a != b {
      WorkWithout(ops - {b}, a);
      WorkWithout(ops - {a}, b);
      assert ops - {a} - {b} == ops - {b} - {a};
    }
  }

  lemma WorkMoved(ops: map<nat, Op>, a: nat, o: Op)
    requires a in ops
    ensures Work(ops[a := o]) == Work(ops) - Left(ops[a]) + Left(o)
  {
    WorkWithout(ops, a);
    WorkWithout(ops[a := o], a);
    assert ops[a := o] - {a} == ops - {a};
  }

  /** Steps of an operation already in flight. */
  predicate Continues(l: Label) {
    || l.KvCreate? || l.SandboxSpawn? || l.NotReady? || l.Commit? || l.RollbackKv? || l.RollbackSandbox?
    || l.RollbackForget? || l.Finally? || l.KillSandbox? || l.KillKv? || l.GiveUp? || l.Finish?
  }

  /** Every step of an operation in flight brings it closer to its end, whatever fails. */
  lemma ContinueShrinks(s: State, l: Label)
    requires Enabled(s, l) && Continues(l)
    ensures Work(Next(s, l).ops) < Work(s.ops)
  {
    hide Work;
    var t := Next(s, l);
    WorkWithout(s.ops, l.op);
    if l.op in t.ops {
      WorkMoved(s.ops, l.op, t.ops[l.op]);
      assert t.ops == s.ops[l.op := t.ops[l.op]];
    } else {
      assert t.ops == s.ops - {l.op};
    }
  }

  predicate SweepOp(o: Op) {
    o.Reaping? && o.sweep
  }

  /** Nothing started since `s` but close's own kills, and no branch was added. */
  ghost predicate OnlySweeps(s: State, t: State) {
    && t.up && !t.life.Open? && t.mem.Keys <= s.mem.Keys
    && forall a | a in t.ops ::
         SweepOp(t.ops[a]) || (a in s.ops && t.ops[a].id == s.ops[a].id && !SweepOp(s.ops[a]))
  }

  lemma ClosingStep(s: State, l: Label)
    requires s.up && !s.life.Open? && Enabled(s, l) && !l.Crash?
    ensures OnlySweeps(s, Next(s, l))
  {
  }

  /** Once closing is set it stays set; whatever is in flight from then on was so before or is
      one of close's own kills. */
  lemma {:induction false} ClosingStartsNothing(s: State, run: seq<Label>)
    requires s.up && !s.life.Open? && Takes(s, run) && forall l | l in run :: !l.Crash?
    ensures OnlySweeps(s, After(s, run))
    decreases |run|
  {
    hide Enabled, Next;
    if run != [] {
      ClosingStep(s, run[0]);
      ClosingStartsNothing(Next(s, run[0]), run[1..]);
    }
  }

  /** The sweep begins only with nothing in flight, and has every record on its list. */
  lemma SweepBeginsQuiet(run: seq<Label>)
    requires Legal(INITIAL, run)
    ensures Takes(INITIAL, run)
    ensures var s := After(INITIAL, run);
            Enabled(s, Drained) ==> s.ops == map[] && Next(s, Drained).life == Sweeping(s.mem.Keys, false)
  {
    InitialInv();
    RunInv(INITIAL, run);
    var s := After(INITIAL, run);
    if Enabled(s, Drained) { QuietWhenDrained(s); }
  }

  /** Draining never gets stuck: some operation in flight can always go on. */
  lemma {:induction false} DrainMoves(s: State) returns (l: Label)
    requires Inv(s) && s.up && s.life.Draining?
    ensures Enabled(s, l) && (if s.ops == map[] then l.Drained? else Continues(l))
  {
    hide Exclusive, OpsOk, Accounted, ClosingOk;
    if a: nat :| a in s.ops {
      l := Onward(s, a);
    } else {
      assert forall id :: id !in s.spawning && id !in s.killing;
      l := Drained;
    }
  }

  /** The label with which an operation goes on, if nothing fails. */
  function Onward(s: State, a: nat): (l: Label)
    requires s.up && a in s.ops
    ensures Enabled(s, l) && Continues(l) && l.op == a
  {
    match s.ops[a]
    case Spawning(_, _, step) =>
      (match step
       case CreateKv => KvCreate(a, true, true)
       case SpawnSandbox => SandboxSpawn(a, true, true)
       case CommitLive => Commit(a, true)
       case RollKv => RollbackKv(a, true, true)
       case RollSandbox(_) => RollbackSandbox(a, true, true)
       case RollForget => RollbackForget(a, true)
       case Unwind => Finally(a))
    case Reaping(_, step, _) =>
      (match step
       case ReapSandbox => KillSandbox(a, true, true)
       case ReapKv => KillKv(a, true, true)
       case ForgetRecord => Finish(a, true)
       case Abandon => GiveUp(a))
  }

  /** The sweep can always go on too, until every record has been tried. */
  lemma SweepMoves(s: State, op: nat) returns (l: Label)
    requires Inv(s) && s.up && s.life.Sweeping? && op !in s.ops
    ensures Enabled(s, l)
    ensures if s.ops != map[] then Continues(l) else if s.life.todo != {} then l.SweepKill? else l.EndClose?
  {
    hide Exclusive, OpsOk, Accounted;
    if a: nat :| a in s.ops {
      l := Onward(s, a);
    } else if s.life.todo != {} {
      var id :| id in s.life.todo;
      l := SweepKill(op, id, true);
    } else {
      assert s.ops == map[];
      l := EndClose;
    }
  }

  /** The steps the sweep has left at most: five per record still listed. */
  ghost function SweepWork(s: State): (n: nat)
    requires s.life.Sweeping?
  {
    Work(s.ops) + 5 * |s.life.todo|
  }

  predicate Sweeps(l: Label) {
    Continues(l) || l.SweepKill?
  }

  lemma SweepStep(s: State, l: Label)
    requires s.up && s.life.Sweeping? && Enabled(s, l) && (Sweeps(l) || l.SandboxDies?)
    ensures Next(s, l).up && Next(s, l).life.Sweeping?
    ensures SweepWork(Next(s, l)) + (if Sweeps(l) then 1 else 0) <= SweepWork(s)
  {
    hide Work;
    var t := Next(s, l);
    if Continues(l) {
      ContinueShrinks(s, l);
    } else if l.SweepKill? && l.ok {
      WorkWithout(t.ops, l.op);
      assert t.ops - {l.op} == s.ops;
    }
  }

  function SweepSteps(run: seq<Label>): (n: nat)
    decreases |run|
  {
    if run == [] then 0 else (if Sweeps(run[0]) then 1 else 0) + SweepSteps(run[1..])
  }

  /** The sweep ends: from its beginning, with nothing in flight, it takes at most five steps per record. */
  lemma {:induction false} SweepEnds(s: State, run: seq<Label>)
    requires s.up && s.life.Sweeping? && Takes(s, run) && forall l | l in run :: Sweeps(l) || l.SandboxDies?
    ensures After(s, run).life.Sweeping? && SweepSteps(run) + SweepWork(After(s, run)) <= SweepWork(s)
    ensures s.ops == map[] ==> SweepSteps(run) <= 5 * |s.life.todo|
    decreases |run|
  {
    if run != [] {
      SweepStep(s, run[0]);
      SweepEnds(Next(s, run[0]), run[1..]);
      hide Enabled, Next, Sweeps;
    }
  }

  function Continuations(run: seq<Label>): (n: nat)
    decreases |run|
  {
    if run == [] then 0 else (if Continues(run[0]) then 1 else 0) + Continuations(run[1..])
  }

  /** Draining ends: before the sweep a closing orchestrator takes at most `Work` steps of its own. */
  lemma {:induction false} DrainEnds(s: State, run: seq<Label>)
    requires Takes(s, run) && forall l | l in run :: Continues(l) || l.SandboxDies?
    ensures Continuations(run) + Work(After(s, run).ops) <= Work(s.ops)
    decreases |run|
  {
    hide Enabled, Work;
    if run != [] {
      DrainEnds(Next(s, run[0]), run[1..]);
      if Continues(run[0]) { ContinueShrinks(s, run[0]); }
    }
  }

  /** A run that closes without error leaves no record and nothing in either backend;
      whatever happened, a closed orchestrator changes nothing more. */
  lemma CloseEmpties(run: seq<Label>, l: Label)
    requires Legal(INITIAL, run)
    ensures Takes(INITIAL, run)
    ensures var s := After(INITIAL, run);
            s.up && s.life == Closed(true) ==> s.mem == map[] && s.disk == map[] && s.kv == {} && s.sandbox == {}
    ensures var s := After(INITIAL, run);
            s.up && s.life.Closed? && Enabled(s, l) ==> l.SandboxDies? || l.Crash?
  {
    InitialInv();
    RunInv(INITIAL, run);
    var s := After(INITIAL, run);
    if s.up && s.life == Closed(true) { ClosedEmpty(s); }
    if s.up && s.life.Closed? && Enabled(s, l) { ClosedInert(s, l); }
  }

  lemma ClosedEmpty(s: State)
    requires Inv(s) && s.up && s.life == Closed(true)
    ensures s.mem == map[] && s.disk == map[] && s.kv == {} && s.sandbox == {}
  {
    hide Exclusive, OpsOk, InFlight;
  }

  lemma ClosedInert(s: State, l: Label)
    requires Inv(s) && s.up && s.life.Closed? && Enabled(s, l)
    ensures l.SandboxDies? || l.Crash?
  {
    hide Exclusive, OpsOk, InFlight, Accounted;
  }

  /******* Crash, load, reconcile *******/

  /** Steps of plain kills. */
  predicate KillStepLabel(l: Label) {
    l.Kill? || l.KillSandbox? || l.KillKv? || l.GiveUp? || l.Finish?
  }

  predicate Succeeds(l: Label) {
    KillStepLabel(l) && !l.GiveUp? && l.ok
  }

  /** The ids a run of kills was started on. */
  function Targets(run: seq<Label>): (ids: set<Id>)
    decreases |run|
  {
    if run == [] then {} else (if run[0].Kill? && run[0].ok then {run[0].id} else {}) + Targets(run[1..])
  }

  /** Kills touch only their targets; each target is gone, in flight, or on record as being killed. */
  ghost predicate Killed(s: State, t: State, ids: set<Id>) {
    && t.up && t.life == s.life && s.life.Open?
    && t.mem.Keys <= s.mem.Keys && (forall x | x in s.mem && x !in ids :: x in t.mem && t.mem[x] == s.mem[x])
    && (forall x | x in ids && x in t.mem :: t.mem[x].phase == Killing)
    && t.killing <= s.killing + ids
    && t.kv <= s.kv && s.kv <= t.kv + ids
    && t.sandbox <= s.sandbox && s.sandbox <= t.sandbox + ids
  }

  /** The targets one step adds. */
  lemma OneTarget(l: Label)
    ensures Targets([l]) == if l.Kill? && l.ok then {l.id} else {}
  {
  }

  lemma KillStartKilled(s: State, t: State, ids: set<Id>, l: Label)
    requires Inv(t) && Enabled(t, l) && l.Kill? && Killed(s, t, ids)
    requires forall a | a in t.ops :: t.ops[a].Reaping? && t.ops[a].id in ids
    ensures Killed(s, Next(t, l), ids + Targets([l]))
    ensures var u := Next(t, l); forall a | a in u.ops :: u.ops[a].Reaping? && u.ops[a].id in ids + Targets([l])
    ensures Succeeds(l) && (forall x | x in ids && x in t.mem :: x in t.killing)
            ==> forall x | x in ids + Targets([l]) && x in Next(t, l).mem :: x in Next(t, l).killing
  {
    hide Exclusive, InFlight, Accounted, ClosingOk, OpsOk, Targets;
    OneTarget(l);
  }

  lemma KillStepKilled(s: State, t: State, ids: set<Id>, l: Label)
    requires Inv(t) && Enabled(t, l) && KillStepLabel(l) && Killed(s, t, ids)
    requires forall a | a in t.ops :: t.ops[a].Reaping? && t.ops[a].id in ids
    ensures Killed(s, Next(t, l), ids + Targets([l]))
    ensures var u := Next(t, l); forall a | a in u.ops :: u.ops[a].Reaping? && u.ops[a].id in ids + Targets([l])
    ensures Succeeds(l) && (forall x | x in ids && x in t.mem :: x in t.killing)
            ==> forall x | x in ids + Targets([l]) && x in Next(t, l).mem :: x in Next(t, l).killing
  {
    if l.Kill? {
      KillStartKilled(s, t, ids, l);
    } else {
      hide Exclusive, InFlight, Accounted, ClosingOk, Targets;
      OneTarget(l);
      assert ids + Targets([l]) == ids;
      assert OpOk(t, t.ops[l.op]);
    }
  }

  /** Kills interleaved in any way, some failing: nothing but the targets changes. */
  lemma {:induction false} KillRun(s: State, t: State, ids: set<Id>, run: seq<Label>)
    requires Inv(t) && Legal(t, run) && Killed(s, t, ids) && forall l | l in run :: KillStepLabel(l)
    requires forall a | a in t.ops :: t.ops[a].Reaping? && t.ops[a].id in ids
    ensures Takes(t, run) && Killed(s, After(t, run), ids + Targets(run))
    ensures (forall l | l in run :: Succeeds(l)) && (forall x | x in ids && x in t.mem :: x in t.killing)
            ==> forall x | x in ids + Targets(run) && x in After(t, run).mem :: x in After(t, run).killing
    decreases |run|
  {
    hide Inv, Enabled, Next, Killed, KillStepLabel;
    if run == [] {
      assert ids + Targets(run) == ids;
    } else {
      KillStepKilled(s, t, ids, run[0]);
      StepInv(t, run[0]);
      KillRun(s, Next(t, run[0]), ids + Targets([run[0]]), run[1..]);
      assert Targets(run) == Targets([run[0]]) + Targets(run[1..]);
      assert ids + Targets(run) == ids + Targets([run[0]]) + Targets(run[1..]);
    }
  }

  /** A collection pass under any interleaving of its kills.  When it is over, every
      other record and backend half is as before; a target is gone, or still on record
      as being killed; if no call failed, all targets are gone everywhere. */
  lemma CollectExact(s: State, run: seq<Label>)
    requires Inv(s) && s.up && s.life.Open? && s.ops == map[] && Legal(s, run) && forall l | l in run :: KillStepLabel(l)
    ensures Takes(s, run)
    ensures Killed(s, After(s, run), Targets(run))
    ensures After(s, run).ops == map[] && (forall l | l in run :: Succeeds(l)) ==>
              && After(s, run).mem == s.mem - Targets(run)
              && After(s, run).kv == s.kv - Targets(run) && After(s, run).sandbox == s.sandbox - Targets(run)
  {
    hide Next, Enabled;
    KillRun(s, s, {}, run);
    RunInv(s, run);
    var t := After(s, run);
    assert {} + Targets(run) == Targets(run);
    if t.ops == map[] && forall l | l in run :: Succeeds(l) {
      KilledGone(s, t, Targets(run));
    }
  }

  lemma KilledGone(s: State, t: State, ids: set<Id>)
    requires Inv(s) && Inv(t) && s.up && Killed(s, t, ids) && t.ops == map[]
    requires forall x | x in ids && x in t.mem :: x in t.killing
    ensures t.mem == s.mem - ids && t.kv == s.kv - ids && t.sandbox == s.sandbox - ids
  {
    hide Exclusive, OpsOk, ClosingOk;
    assert t.killing == {};
  }

  /** A kill that reports success has left nothing of its branch, whatever else is going on. */
  lemma ReapedIsGone(s: State, l: Label)
    requires Inv(s) && Enabled(s, l) && l.Finish? && l.ok
    ensures var id, t := s.ops[l.op].id, Next(s, l);
            id !in t.mem && id !in t.disk && id !in t.kv && id !in t.sandbox && id !in t.killing && id !in t.spawning
  {
    hide ClosingOk;
    assert OpOk(s, s.ops[l.op]);
    EndKillInv(s, l);
  }

  /** Crash anywhere, load, and reconcile with kills that succeed: nothing is left. */
  lemma CrashRecovers(s: State, kvLeft: set<Id>, sandboxLeft: set<Id>, run: seq<Label>)
    requires Inv(s) && Enabled(s, Crash(kvLeft, sandboxLeft))
    requires var t := Next(Next(s, Crash(kvLeft, sandboxLeft)), Load);
             Takes(t, run) && Legal(t, run) && Targets(run) == t.loaded && After(t, run).ops == map[]
    requires forall l | l in run :: Succeeds(l)
    ensures var t := Next(Next(s, Crash(kvLeft, sandboxLeft)), Load);
            && t.loaded == s.disk.Keys && Takes(t, run)
            && After(t, run).mem == map[] && After(t, run).disk == map[]
            && After(t, run).kv == {} && After(t, run).sandbox == {}
  {
    var u := Next(s, Crash(kvLeft, sandboxLeft));
    var t := Next(u, Load);
    CrashLoadInv(s, Crash(kvLeft, sandboxLeft));
    CrashLoadInv(u, Load);
    CollectExact(t, run);
    RunInv(t, run);
    EmptyRegistry(After(t, run));
  }

  lemma EmptyRegistry(s: State)
    requires Inv(s) && s.up && s.mem.Keys == {}
    ensures s.mem == map[] && s.disk == map[] && s.kv == {} && s.sandbox == {}
  {
    hide Exclusive, OpsOk, ClosingOk, InFlight;
  }
}
