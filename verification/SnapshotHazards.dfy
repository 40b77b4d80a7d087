/** What goes wrong with snapshots, and exactly when. */
module SnapshotHazards {
  import opened Common
  import opened Snapshots
  import opened SnapshotRuns

  /******* A kill under a checkpoint *******/

  /** Some continuation, without a further overlap, marks a snapshot of `b` current that is not. */
  ghost predicate CanBreak(s: State, b: Id) {
    exists run :: Legal(s, run) && Takes(s, run) && !Honest(After(s, run), b)
  }

  lemma BreakNow(s: State, b: Id)
    requires !Honest(s, b)
    ensures CanBreak(s, b)
  {
    assert Legal(s, []) && After(s, []) == s;
  }

  lemma BreakStep(s: State, l: Label, b: Id)
    requires Enabled(s, l) && !Overlaps(s, l) && CanBreak(Next(s, l), b)
    ensures CanBreak(s, b)
  {
    hide Enabled, Next, Overlaps, Honest;
    var run :| Legal(Next(s, l), run) && Takes(Next(s, l), run) && !Honest(After(Next(s, l), run), b);
    assert ([l] + run)[0] == l && ([l] + run)[1..] == run;
    assert Legal(s, [l] + run) && Takes(s, [l] + run) && After(s, [l] + run) == After(Next(s, l), run);
  }

  /** A checkpoint of `b` that has written and claims generation `at`. */
  predicate Claims(s: State, c: nat, b: Id, at: nat) {
    c in s.ops && s.ops[c].Checked? && s.ops[c].branch == b && s.ops[c].at == at
  }

  /** The pair on disk is not a current snapshot of `b`. */
  predicate Stale(s: State, b: Id) {
    b in s.vms && b in s.files && (s.files[b].vm != s.vms[b].vm || !(s.vms[b].finished <= s.files[b].content))
  }

  lemma RecordBreaks(s: State, c: nat, b: Id)
    requires Claims(s, c, b, Gen(s, b)) && Stale(s, b)
    ensures CanBreak(s, b)
  {
    hide Legal, Takes, After, CanBreak;
    BreakNow(Next(s, CheckOk(c)), b);
    BreakStep(s, CheckOk(c), b);
  }

  /** The claim comes true in name when the new life reaches the claimed generation. */
  lemma {:induction false} ExecsBreak(s: State, c: nat, b: Id, at: nat, x: nat, k: nat)
    requires Claims(s, c, b, at) && Stale(s, b) && Gen(s, b) <= at && x !in s.ops && Free(s, b, k)
    ensures CanBreak(s, b)
    decreases at - Gen(s, b)
  {
    hide CanBreak;
    if Gen(s, b) == at {
      RecordBreaks(s, c, b);
    } else {
      var t := Next(s, ExecStart(x, b, k));
      var u := Next(t, ExecEnd(x));
      ExecsBreak(u, c, b, at, x, k);
      BreakStep(t, ExecEnd(x), b);
      BreakStep(s, ExecStart(x, b, k), b);
    }
  }

  lemma EndBreaks(s: State, c: nat, b: Id, at: nat, x: nat, k: nat)
    requires Claims(s, c, b, at) && at > 0 && b in s.vms && b in s.files && s.files[b].content == {} && Gen(s, b) == 0
    requires x in s.ops && x != c && s.ops[x].Execing? && s.ops[x].branch == b && s.ops[x].vm == s.vms[b].vm && s.ops[x].exec in s.vms[b].effects
    requires s.ops[x].lock == k && k in s.owner && s.owner[k] == b
    ensures CanBreak(s, b)
  {
    hide CanBreak;
    ExecsBreak(Next(s, ExecEnd(x)), c, b, at, x, k);
    BreakStep(s, ExecEnd(x), b);
  }

  /** An exec that lands after the pair was written makes the pair stale. */
  lemma LandBreaks(s: State, c: nat, b: Id, at: nat, x: nat, k: nat)
    requires Claims(s, c, b, at) && at > 0 && b in s.vms && b in s.files && s.files[b].content == {} && Gen(s, b) == 0
    requires x !in s.ops && Free(s, b, k)
    ensures CanBreak(s, b)
  {
    hide CanBreak;
    var t := Next(s, ExecStart(x, b, k));
    EndBreaks(Next(t, ExecLands(x)), c, b, at, x, k);
    BreakStep(t, ExecLands(x), b);
    BreakStep(s, ExecStart(x, b, k), b);
  }

  lemma WriteBreaks(s: State, c: nat, b: Id, at: nat, x: nat, k: nat)
    requires Claims(s, c, b, at) && at > 0 && b in s.vms && s.vms[b].effects == {} && Gen(s, b) == 0
    requires x in s.ops && x != c && s.ops[x].Checking? && s.ops[x].branch == b && s.ops[x].vm == s.vms[b].vm
    requires s.ops[x].lock == k && k in s.owner && s.owner[k] == b
    ensures CanBreak(s, b)
  {
    hide CanBreak;
    var t := Next(s, CheckWrites(x));
    LandBreaks(Next(t, CheckFails(x)), c, b, at, x, k);
    BreakStep(t, CheckFails(x), b);
    BreakStep(s, CheckWrites(x), b);
  }

  /** A second checkpoint, of the new life. */
  lemma CheckBreaks(s: State, c: nat, b: Id, at: nat, x: nat, k: nat)
    requires Claims(s, c, b, at) && at > 0 && b in s.vms && s.vms[b].effects == {} && Gen(s, b) == 0
    requires x !in s.ops && Free(s, b, k)
    ensures CanBreak(s, b)
  {
    hide CanBreak;
    WriteBreaks(Next(s, CheckStart(x, b, k)), c, b, at, x, k);
    BreakStep(s, CheckStart(x, b, k), b);
  }

  /** The new life of the branch gets a new lock object. */
  lemma LockBreaks(s: State, c: nat, b: Id, at: nat, x: nat)
    requires Claims(s, c, b, at) && at > 0 && b in s.vms && s.vms[b].effects == {} && b !in s.gen && b !in s.locks
    requires x !in s.ops && s.clock !in s.held
    ensures CanBreak(s, b)
  {
    hide CanBreak, SpawnNext, EndNext;
    CheckBreaks(Next(s, MakeLock(b)), c, b, at, x, s.clock);
    BreakStep(s, MakeLock(b), b);
  }

  /** The branch is spawned again. */
  lemma RespawnBreaks(s: State, c: nat, b: Id, at: nat, x: nat)
    requires Claims(s, c, b, at) && at > 0 && b !in s.vms && b !in s.pending && b !in s.gen && b !in s.locks
    requires x !in s.ops && Numbered(s)
    ensures CanBreak(s, b)
  {
    hide CanBreak, OtherNext;
    var t := Next(s, SpawnRoot(x, b));
    LockBreaks(Next(t, BootOk(x)), c, b, at, x);
    BreakStep(t, BootOk(x), b);
    BreakStep(s, SpawnRoot(x, b), b);
  }

  /** After the kill, with the checkpoint's pair written. */
  lemma WrittenBreaks(s: State, c: nat, b: Id, at: nat, x: nat, kill: nat)
    requires Claims(s, c, b, at) && (at > 0 || b in s.files) && b !in s.vms && b !in s.pending && b !in s.gen
    requires x !in s.ops && Numbered(s) && kill in s.ops && s.ops[kill] == Cleaning(b)
    ensures CanBreak(s, b)
  {
    hide CanBreak;
    if at == 0 {
      var t := Next(s, SpawnRoot(x, b));
      RecordBreaks(Next(t, BootOk(x)), c, b);
      BreakStep(t, BootOk(x), b);
      BreakStep(s, SpawnRoot(x, b), b);
    } else {
      RespawnBreaks(Next(s, KillCleans(kill, true)), c, b, at, x);
      BreakStep(s, KillCleans(kill, true), b);
    }
  }

  lemma OverlapBreaks(s: State, l: Label, c: nat, x: nat)
    requires Inv(s) && Enabled(s, l) && l.KillPops? && c in s.ops && Untimely(s, s.ops[c], l.id) && x !in s.ops && x != l.op
    ensures CanBreak(Next(s, l), l.id)
  {
    hide CanBreak, Locked, Spawns, OpsOk;
    var t := Next(s, l);
    NumberedStep(s, l);
    assert CurrentAt(s, l.id);
    if s.ops[c].Checking? {
      NumberedStep(t, CheckWrites(c));
      WrittenBreaks(Next(t, CheckWrites(c)), c, l.id, s.ops[c].at, x, l.op);
      BreakStep(t, CheckWrites(c), l.id);
    } else {
      WrittenBreaks(t, c, l.id, s.ops[c].at, x, l.op);
    }
  }

  /** The hypothesis is exact.  After a kill under a checkpoint some continuation marks a
      snapshot of the branch current that is of another VM or misses an ended exec; after any
      other step no continuation does, for any branch.  (`x` is any unused operation number.) */
  lemma OverlapExact(s: State, l: Label, x: nat)
    requires Inv(s) && Enabled(s, l) && x !in s.ops && (l.KillPops? ==> x != l.op)
    ensures (exists b :: CanBreak(Next(s, l), b)) <==> Overlaps(s, l)
  {
    hide Inv, Enabled, Next;
    if Overlaps(s, l) {
      var c :| c in s.ops && Untimely(s, s.ops[c], l.id);
      OverlapBreaks(s, l, c, x);
    } else {
      StepInv(s, l);
      forall b ensures !CanBreak(Next(s, l), b) { NeverBreaks(Next(s, l), b); }
    }
  }

  lemma NeverBreaks(s: State, b: Id)
    requires Inv(s)
    ensures !CanBreak(s, b)
  {
    hide Inv, Enabled, Next, Honest;
    if CanBreak(s, b) {
      var run :| Legal(s, run) && Takes(s, run) && !Honest(After(s, run), b);
      RunInv(s, run);
      InvHonest(After(s, run), b);
      assert false;
    }
  }

  /******* Concrete runs *******/

  /** From the `k`th label on, the run leads from `s` to `t`, and is legal if `legal`. */
  ghost predicate Leads(s: State, run: seq<Label>, k: nat, t: State, legal: bool) {
    k <= |run| && Takes(s, run[k..]) && (legal ==> Legal(s, run[k..])) && After(s, run[k..]) == t
  }

  lemma LeadsNowhere(s: State, run: seq<Label>)
    ensures Leads(s, run, |run|, s, true)
  {
  }

  lemma LeadsOn(s: State, run: seq<Label>, k: nat, t: State, legal: bool)
    requires k < |run| && Enabled(s, run[k]) && (legal ==> !Overlaps(s, run[k])) && Leads(Next(s, run[k]), run, k + 1, t, legal)
    ensures Leads(s, run, k, t, legal)
  {
    hide Enabled, Next, Overlaps;
    assert run[k..][0] == run[k] && run[k..][1..] == run[k + 1..];
  }

  /** The parent "p" is forked once and then runs an exec ... */
  const FORK_THEN_EXEC: seq<Label> := [
    SpawnRoot(0, "p"), BootOk(0), MakeLock("p"),
    SpawnChild(0, "c", "p"), Pause(0, 1), SnapWrites(0), SnapOk(0), RestoreOk(0),
    ExecStart(0, "p", 1), ExecLands(0), ExecEnd(0)]

  /** ... and is forked again while its kill is tearing it down: after the dictionaries were
      cleared and before the files are removed. */
  const FORK_IN_KILL: seq<Label> := [KillPops(0, "p"), SpawnChild(1, "d", "p"), Leftover(1, 1), SalvageOk(1)]

  const BOOTED := State(map["p" := Guest(0, {}, {})], {}, map[], map[], map[], {}, map[], map["p" := 1], map[1 := "p"], map[], map[], 2)

  const FORKED := State(map["p" := Guest(0, {}, {}), "c" := Guest(3, {}, {})], {}, map[], map[], map["p" := 0], {"p"},
                        map["p" := Snapshot(2, 0, {})], map["p" := 1], map[1 := "p"], map[], map[], 4)

  const EXECED := State(map["p" := Guest(0, {4}, {4}), "c" := Guest(3, {}, {})], {}, map[], map["p" := 1], map["p" := 0], {"p"},
                        map["p" := Snapshot(2, 0, {})], map["p" := 1], map[1 := "p"], map[], map[], 5)

  lemma LateBoot()
    requires Leads(BOOTED, FORK_THEN_EXEC, 3, EXECED, true)
    ensures Leads(INITIAL, FORK_THEN_EXEC, 0, EXECED, true)
  {
    hide Leads;
    var s1 := Next(INITIAL, FORK_THEN_EXEC[0]);
    assert s1.ops == map[0 := Booting("p")];
    var s2 := Next(s1, FORK_THEN_EXEC[1]);
    assert s2.ops == map[] && s2.pending == {};
    assert Next(s2, FORK_THEN_EXEC[2]) == BOOTED;
    LeadsOn(s2, FORK_THEN_EXEC, 2, EXECED, true);
    LeadsOn(s1, FORK_THEN_EXEC, 1, EXECED, true);
    LeadsOn(INITIAL, FORK_THEN_EXEC, 0, EXECED, true);
  }

  lemma LateSnap(s: State)
    requires s == BOOTED.(pending := {"c"}, parentForks := map["p" := 1], held := map[1 := 0], ops := map[0 := Snapping("c", "p", 0, {}, 1)])
    requires Leads(FORKED, FORK_THEN_EXEC, 8, EXECED, true)
    ensures Leads(s, FORK_THEN_EXEC, 5, EXECED, true)
  {
    hide Leads;
    var s6 := Next(s, FORK_THEN_EXEC[5]);
    assert s6.ops == map[0 := Snapped("c", "p", 0, {}, 1)];
    var s7 := Next(s6, FORK_THEN_EXEC[6]);
    assert s7.ops == map[0 := Restoring("c", "p", {})];
    var s8 := Next(s7, FORK_THEN_EXEC[7]);
    assert s8.ops == map[] && s8.parentForks == map[] && s8.pending == {};
    assert s8.vms == FORKED.vms && s8.held == map[] && s8.snapshots == {"p"} && s8.snapGen == map["p" := 0];
    assert s8 == FORKED;
    LeadsOn(s7, FORK_THEN_EXEC, 7, EXECED, true);
    LeadsOn(s6, FORK_THEN_EXEC, 6, EXECED, true);
    LeadsOn(s, FORK_THEN_EXEC, 5, EXECED, true);
  }

  lemma LateFork()
    requires Leads(FORKED, FORK_THEN_EXEC, 8, EXECED, true)
    ensures Leads(BOOTED, FORK_THEN_EXEC, 3, EXECED, true)
  {
    hide Leads;
    var s4 := Next(BOOTED, FORK_THEN_EXEC[3]);
    assert s4.ops == map[0 := Op.Forking("c", "p")];
    var s5 := Next(s4, FORK_THEN_EXEC[4]);
    LateSnap(s5);
    LeadsOn(s4, FORK_THEN_EXEC, 4, EXECED, true);
    LeadsOn(BOOTED, FORK_THEN_EXEC, 3, EXECED, true);
  }

  lemma LateExec()
    ensures Leads(FORKED, FORK_THEN_EXEC, 8, EXECED, true)
  {
    hide Leads;
    var s9 := Next(FORKED, FORK_THEN_EXEC[8]);
    assert s9.ops == map[0 := Execing("p", 0, 4, 1)];
    var s10 := Next(s9, FORK_THEN_EXEC[9]);
    var none: set<nat>, four: set<nat> := {}, {4};
    assert none + four == four;
    assert s10.vms["p"] == Guest(0, {4}, {});
    var s11 := Next(s10, FORK_THEN_EXEC[10]);
    assert s11.vms == EXECED.vms && s11.ops == map[] && s11.held == map[];
    LeadsNowhere(EXECED, FORK_THEN_EXEC);
    LeadsOn(s10, FORK_THEN_EXEC, 10, EXECED, true);
    LeadsOn(s9, FORK_THEN_EXEC, 9, EXECED, true);
    LeadsOn(FORKED, FORK_THEN_EXEC, 8, EXECED, true);
  }

  lemma LateKill() returns (t: State)
    ensures Leads(EXECED, FORK_IN_KILL, 0, t, true) && "d" in t.vms && t.vms["d"].effects == {}
  {
    hide Leads;
    var s1 := Next(EXECED, FORK_IN_KILL[0]);
    assert s1.ops == map[0 := Cleaning("p")];
    var s2 := Next(s1, FORK_IN_KILL[1]);
    assert s2.ops == map[0 := Cleaning("p"), 1 := Op.Forking("d", "p")];
    var s3 := Next(s2, FORK_IN_KILL[2]);
    assert s3.ops == map[0 := Cleaning("p"), 1 := Salvaging("d", "p")];
    t := Next(s3, FORK_IN_KILL[3]);
    LeadsNowhere(t, FORK_IN_KILL);
    LeadsOn(s3, FORK_IN_KILL, 3, t, true);
    LeadsOn(s2, FORK_IN_KILL, 2, t, true);
    LeadsOn(s1, FORK_IN_KILL, 1, t, true);
    LeadsOn(EXECED, FORK_IN_KILL, 0, t, true);
  }

  /** A fork of a parent that is being killed can hand out a state that misses an ended exec. */
  lemma LateForkMisses() returns (s: State, t: State)
    ensures Legal(INITIAL, FORK_THEN_EXEC) && Takes(INITIAL, FORK_THEN_EXEC) && s == After(INITIAL, FORK_THEN_EXEC)
    ensures "p" in s.vms && s.vms["p"].finished == {4}
    ensures Legal(s, FORK_IN_KILL) && Takes(s, FORK_IN_KILL) && t == After(s, FORK_IN_KILL)
    ensures "d" in t.vms && 4 !in t.vms["d"].effects
  {
    hide Legal, Takes, After;
    LateExec();
    LateFork();
    LateBoot();
    s := EXECED;
    t := LateKill();
    assert FORK_THEN_EXEC[0..] == FORK_THEN_EXEC && FORK_IN_KILL[0..] == FORK_IN_KILL;
  }

  /** A checkpoint of "b" that started after one exec outlives "b"; the new "b" is checkpointed,
      runs an exec, and only then does the first checkpoint record its generation.  No spawn
      overlaps a kill here. */
  const OUTLIVING_CHECK: seq<Label> := [
    SpawnRoot(0, "b"), BootOk(0), MakeLock("b"), ExecStart(0, "b", 1), ExecEnd(0),
    CheckStart(0, "b", 1), CheckWrites(0), KillPops(1, "b"), KillCleans(1, true),
    SpawnRoot(1, "b"), BootOk(1), MakeLock("b"), CheckStart(1, "b", 5), CheckWrites(1), CheckOk(1),
    ExecStart(1, "b", 5), ExecLands(1), ExecEnd(1), CheckOk(0)]

  /** The rest of that run ends with a stale pair counting as current. */
  ghost predicate EndsStale(s: State, k: nat) {
    k <= |OUTLIVING_CHECK| && Takes(s, OUTLIVING_CHECK[k..])
    && var t := After(s, OUTLIVING_CHECK[k..]);
    Fresh(t, "b") && "b" in t.vms && "b" in t.files && t.vms["b"].finished == {7} && t.files["b"].content == {}
  }

  lemma StaleStep(s: State, k: nat)
    requires k < |OUTLIVING_CHECK| && Enabled(s, OUTLIVING_CHECK[k]) && EndsStale(Next(s, OUTLIVING_CHECK[k]), k + 1)
    ensures EndsStale(s, k)
  {
    hide Enabled, Next, Fresh;
    assert OUTLIVING_CHECK[k..][0] == OUTLIVING_CHECK[k] && OUTLIVING_CHECK[k..][1..] == OUTLIVING_CHECK[k + 1..];
  }

  lemma OldRecords(s: State)
    requires s.ops == map[0 := Checked("b", 1, 1)] && Gen(s, "b") == 1 && "b" in s.vms && "b" in s.files
    requires s.vms["b"].finished == {7} && s.files["b"].content == {}
    ensures EndsStale(s, 18)
  {
    assert OUTLIVING_CHECK[18..][0] == CheckOk(0) && OUTLIVING_CHECK[18..][1..] == [];
  }

  lemma NewExecEnds(s: State)
    requires s.ops == map[0 := Checked("b", 1, 1), 1 := Execing("b", 4, 7, 5)] && Gen(s, "b") == 0 && "b" in s.vms && "b" in s.files
    requires s.vms["b"] == Guest(4, {7}, {}) && s.files["b"].content == {}
    ensures EndsStale(s, 17)
  {
    hide EndsStale;
    var t := Next(s, OUTLIVING_CHECK[17]);
    assert t.ops == map[0 := Checked("b", 1, 1)];
    OldRecords(t);
    StaleStep(s, 17);
  }

  lemma NewExecs(s: State)
    requires s.ops == map[0 := Checked("b", 1, 1)] && Gen(s, "b") == 0 && "b" in s.vms && "b" in s.files && Free(s, "b", 5)
    requires s.vms["b"] == Guest(4, {}, {}) && s.files["b"].content == {} && s.clock == 7
    ensures EndsStale(s, 15)
  {
    hide EndsStale;
    var t := Next(s, OUTLIVING_CHECK[15]);
    assert t.ops == map[0 := Checked("b", 1, 1), 1 := Execing("b", 4, 7, 5)];
    var none: set<nat>, seven: set<nat> := {}, {7};
    assert none + seven == seven;
    NewExecEnds(Next(t, OUTLIVING_CHECK[16]));
    StaleStep(t, 16);
    StaleStep(s, 15);
  }

  lemma NewCheckRecords(s: State)
    requires s.ops == map[0 := Checked("b", 1, 1), 1 := Checked("b", 0, 5)] && Gen(s, "b") == 0 && "b" in s.vms && "b" in s.files
    requires s.vms["b"] == Guest(4, {}, {}) && s.files["b"].content == {} && s.clock == 7 && 5 in s.owner && s.owner[5] == "b"
    ensures EndsStale(s, 14)
  {
    hide EndsStale;
    var t := Next(s, OUTLIVING_CHECK[14]);
    assert t.ops == map[0 := Checked("b", 1, 1)];
    NewExecs(t);
    StaleStep(s, 14);
  }

  lemma NewCheckWrites(s: State)
    requires s.ops == map[0 := Checked("b", 1, 1), 1 := Checking("b", 4, {}, 0, 5)] && Gen(s, "b") == 0 && "b" in s.vms
    requires s.vms["b"] == Guest(4, {}, {}) && s.clock == 6 && 5 in s.owner && s.owner[5] == "b"
    ensures EndsStale(s, 13)
  {
    hide EndsStale;
    var t := Next(s, OUTLIVING_CHECK[13]);
    assert t.ops == map[0 := Checked("b", 1, 1), 1 := Checked("b", 0, 5)];
    NewCheckRecords(t);
    StaleStep(s, 13);
  }

  lemma NewChecks(s: State)
    requires s.ops == map[0 := Checked("b", 1, 1)] && Gen(s, "b") == 0 && "b" in s.vms && Free(s, "b", 5)
    requires s.vms["b"] == Guest(4, {}, {}) && s.clock == 6
    ensures EndsStale(s, 12)
  {
    hide EndsStale;
    var t := Next(s, OUTLIVING_CHECK[12]);
    assert t.ops == map[0 := Checked("b", 1, 1), 1 := Checking("b", 4, {}, 0, 5)];
    NewCheckWrites(t);
    StaleStep(s, 12);
  }

  lemma NewBoots(s: State)
    requires s.ops == map[0 := Checked("b", 1, 1), 1 := Booting("b")] && "b" !in s.gen && "b" !in s.locks
    requires s.held == map[1 := 0] && s.clock == 4
    ensures EndsStale(s, 10)
  {
    hide EndsStale;
    var t := Next(s, OUTLIVING_CHECK[10]);
    assert t.ops == map[0 := Checked("b", 1, 1)];
    NewChecks(Next(t, OUTLIVING_CHECK[11]));
    StaleStep(t, 11);
    StaleStep(s, 10);
  }

  lemma NewLife(s: State)
    requires s.ops == map[0 := Checked("b", 1, 1)] && "b" !in s.vms && "b" !in s.gen && "b" !in s.pending && "b" !in s.locks
    requires s.held == map[1 := 0] && s.clock == 4
    ensures EndsStale(s, 9)
  {
    hide EndsStale;
    var t := Next(s, OUTLIVING_CHECK[9]);
    assert t.ops == map[0 := Checked("b", 1, 1), 1 := Booting("b")];
    NewBoots(t);
    StaleStep(s, 9);
  }

  lemma OldLife(s: State)
    requires s == State(map["b" := Guest(0, {}, {})], {}, map[], map["b" := 1], map[], {}, map[], map["b" := 1], map[1 := "b"], map[], map[], 3)
    ensures EndsStale(s, 5)
  {
    hide EndsStale;
    var t := Next(s, OUTLIVING_CHECK[5]);
    assert t.ops == map[0 := Checking("b", 0, {}, 1, 1)];
    var u := Next(t, OUTLIVING_CHECK[6]);
    assert u.ops == map[0 := Checked("b", 1, 1)];
    var v := Next(u, OUTLIVING_CHECK[7]);
    assert v.ops == map[0 := Checked("b", 1, 1), 1 := Cleaning("b")];
    var w := Next(v, OUTLIVING_CHECK[8]);
    assert w.ops == map[0 := Checked("b", 1, 1)];
    NewLife(w);
    StaleStep(v, 8);
    StaleStep(u, 7);
    StaleStep(t, 6);
    StaleStep(s, 5);
  }

  lemma FirstExec(s: State)
    requires s == State(map["b" := Guest(0, {}, {})], {}, map[], map[], map[], {}, map[], map["b" := 1], map[1 := "b"], map[], map[], 2)
    ensures EndsStale(s, 3)
  {
    hide EndsStale;
    var t := Next(s, OUTLIVING_CHECK[3]);
    assert t.ops == map[0 := Execing("b", 0, 2, 1)];
    var u := Next(t, OUTLIVING_CHECK[4]);
    assert u.vms == map["b" := Guest(0, {}, {})] && u.ops == map[] && u.held == map[];
    OldLife(u);
    StaleStep(t, 4);
    StaleStep(s, 3);
  }

  lemma OldBoots()
    ensures EndsStale(INITIAL, 0)
  {
    hide EndsStale;
    var s1 := Next(INITIAL, OUTLIVING_CHECK[0]);
    assert s1.ops == map[0 := Booting("b")];
    var s2 := Next(s1, OUTLIVING_CHECK[1]);
    assert s2.ops == map[] && s2.pending == {};
    FirstExec(Next(s2, OUTLIVING_CHECK[2]));
    StaleStep(s2, 2);
    StaleStep(s1, 1);
    StaleStep(INITIAL, 0);
  }

  /** The hypothesis is needed even if no spawn ever overlaps a kill: the pair counts as a
      current snapshot of "b" and misses the exec that ended on it. */
  lemma OutlivingMisses()
    ensures Takes(INITIAL, OUTLIVING_CHECK)
    ensures var t := After(INITIAL, OUTLIVING_CHECK);
            Fresh(t, "b") && "b" in t.vms && "b" in t.files && !(t.vms["b"].finished <= t.files["b"].content)
  {
    hide Takes, After;
    OldBoots();
    assert OUTLIVING_CHECK[0..] == OUTLIVING_CHECK;
  }

  /******* Two holders *******/

  /** An exec outlives "b", and the new "b" is worked on under a new lock object. */
  const TWO_LIVES: seq<Label> := [
    SpawnRoot(0, "b"), BootOk(0), MakeLock("b"), ExecStart(0, "b", 1), KillPops(1, "b"), KillCleans(1, true),
    SpawnRoot(1, "b"), BootOk(1), MakeLock("b"), ExecStart(1, "b", 4)]

  /** The rest of that run ends with both execs in flight. */
  ghost predicate EndsDouble(s: State, k: nat) {
    k <= |TWO_LIVES| && Takes(s, TWO_LIVES[k..])
    && After(s, TWO_LIVES[k..]).ops == map[0 := Execing("b", 0, 2, 1), 1 := Execing("b", 3, 5, 4)]
  }

  lemma DoubleStep(s: State, k: nat)
    requires k < |TWO_LIVES| && Enabled(s, TWO_LIVES[k]) && EndsDouble(Next(s, TWO_LIVES[k]), k + 1)
    ensures EndsDouble(s, k)
  {
    hide Enabled, Next;
    assert TWO_LIVES[k..][0] == TWO_LIVES[k] && TWO_LIVES[k..][1..] == TWO_LIVES[k + 1..];
  }

  lemma SecondExec(s: State)
    requires s.ops == map[0 := Execing("b", 0, 2, 1)] && "b" in s.vms && s.vms["b"].vm == 3 && Free(s, "b", 4) && s.clock == 5
    ensures EndsDouble(s, 9)
  {
    assert TWO_LIVES[9..][0] == ExecStart(1, "b", 4) && TWO_LIVES[9..][1..] == [];
  }

  lemma SecondBoot(s: State)
    requires s.ops == map[0 := Execing("b", 0, 2, 1), 1 := Booting("b")] && "b" !in s.locks && s.held == map[1 := 0] && s.clock == 3
    ensures EndsDouble(s, 7)
  {
    hide EndsDouble;
    var t := Next(s, TWO_LIVES[7]);
    assert t.ops == map[0 := Execing("b", 0, 2, 1)];
    SecondExec(Next(t, TWO_LIVES[8]));
    DoubleStep(t, 8);
    DoubleStep(s, 7);
  }

  lemma SecondLife(s: State)
    requires s.ops == map[0 := Execing("b", 0, 2, 1)] && "b" !in s.vms && "b" !in s.pending && "b" !in s.locks && s.held == map[1 := 0] && s.clock == 3
    ensures EndsDouble(s, 6)
  {
    hide EndsDouble;
    var t := Next(s, TWO_LIVES[6]);
    assert t.ops == map[0 := Execing("b", 0, 2, 1), 1 := Booting("b")];
    SecondBoot(t);
    DoubleStep(s, 6);
  }

  lemma FirstKill(s: State)
    requires s.ops == map[0 := Execing("b", 0, 2, 1)] && s.pending == {} && s.parentForks == map[] && s.held == map[1 := 0] && s.clock == 3
    ensures EndsDouble(s, 4)
  {
    hide EndsDouble;
    var t := Next(s, TWO_LIVES[4]);
    assert t.ops == map[0 := Execing("b", 0, 2, 1), 1 := Cleaning("b")];
    var u := Next(t, TWO_LIVES[5]);
    assert u.ops == map[0 := Execing("b", 0, 2, 1)];
    SecondLife(u);
    DoubleStep(t, 5);
    DoubleStep(s, 4);
  }

  lemma FirstLife(s: State)
    requires s.ops == map[] && "b" in s.vms && s.vms["b"].vm == 0 && s.pending == {} && s.parentForks == map[]
    requires s.held == map[] && s.clock == 2 && Free(s, "b", 1)
    ensures EndsDouble(s, 3)
  {
    hide EndsDouble;
    FirstKill(Next(s, TWO_LIVES[3]));
    DoubleStep(s, 3);
  }

  lemma FirstBoot()
    ensures EndsDouble(INITIAL, 0)
  {
    hide EndsDouble;
    var s1 := Next(INITIAL, TWO_LIVES[0]);
    assert s1.ops == map[0 := Booting("b")];
    var s2 := Next(s1, TWO_LIVES[1]);
    assert s2.ops == map[] && s2.pending == {};
    FirstLife(Next(s2, TWO_LIVES[2]));
    DoubleStep(s2, 2);
    DoubleStep(s1, 1);
    DoubleStep(INITIAL, 0);
  }

  /** After a kill has dropped the lock entry, two execs can work on one branch id at once. */
  lemma TwoHolders()
    ensures Takes(INITIAL, TWO_LIVES)
    ensures After(INITIAL, TWO_LIVES).ops == map[0 := Execing("b", 0, 2, 1), 1 := Execing("b", 3, 5, 4)]
  {
    hide Takes, After;
    FirstBoot();
    assert TWO_LIVES[0..] == TWO_LIVES;
  }
}
