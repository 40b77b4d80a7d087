/** What the snapshot bookkeeping lets happen: operations can go through, and none is stuck. */
module SnapshotProgress {
  import opened Common
  import opened Snapshots
  import opened SnapshotRuns

  lemma Cons(s: State, l: Label, run: seq<Label>)
    requires Enabled(s, l) && !l.KillPops? && Legal(Next(s, l), run) && Takes(Next(s, l), run)
    ensures Legal(s, [l] + run) && Takes(s, [l] + run) && After(s, [l] + run) == After(Next(s, l), run)
  {
    hide Enabled, Next;
    assert ([l] + run)[1..] == run;
  }

  lemma Two(s: State, a: Label, b: Label)
    requires Enabled(s, a) && !a.KillPops? && !b.KillPops? && Enabled(Next(s, a), b)
    ensures var run := [a] + [b]; Legal(s, run) && Takes(s, run) && After(s, run) == Next(Next(s, a), b)
  {
    hide Enabled, Next;
    Cons(Next(s, a), b, []);
    Cons(s, a, [b]);
  }

  lemma Three(s: State, a: Label, b: Label, c: Label)
    requires Enabled(s, a) && !a.KillPops? && !b.KillPops? && !c.KillPops?
    requires Enabled(Next(s, a), b) && Enabled(Next(Next(s, a), b), c)
    ensures var run := [a] + ([b] + [c]); Legal(s, run) && Takes(s, run) && After(s, run) == Next(Next(Next(s, a), b), c)
  {
    hide Enabled, Next;
    Two(Next(s, a), b, c);
    Cons(s, a, [b] + [c]);
  }

  /** A fork of a parent whose snapshot is current goes through without writing one: the pair
      stays, and the child starts with what it holds. */
  lemma ForkReuses(s: State, op: nat, lock: nat)
    requires Inv(s) && op in s.ops && s.ops[op].Forking? && Free(s, s.ops[op].parent, lock)
    requires s.ops[op].parent in s.vms && Fresh(s, s.ops[op].parent) && s.ops[op].parent in s.files
    ensures var o, run := s.ops[op], [Reuse(op, lock)] + [RestoreOk(op)];
            && Legal(s, run) && Takes(s, run)
            && var t := After(s, run);
               && t.vms == s.vms[o.child := Guest(s.clock, s.files[o.parent].content, s.files[o.parent].content)]
               && t.files == s.files && Fresh(t, o.parent) && t.held == s.held && t.ops == s.ops - {op} && o.child !in t.pending
  {
    hide Locked, Spawns, Numbered, Current, OpsOk, Fewer;
    Two(s, Reuse(op, lock), RestoreOk(op));
  }

  /** The state after a fork has taken its snapshot. */
  function Taken(s: State, op: nat): State
    requires op in s.ops && s.ops[op].Forking? && s.ops[op].parent in s.vms
  {
    var o := s.ops[op];
    var p := s.vms[o.parent];
    Record(Write(s, o.parent, p.vm, p.effects), o.parent, Gen(s, o.parent)).(ops := s.ops[op := Restoring(o.child, o.parent, p.finished)])
  }

  /** The same one step at a time. */
  function Paused(s: State, op: nat, lock: nat): State
    requires op in s.ops && s.ops[op].Forking? && s.ops[op].parent in s.vms
  {
    var o := s.ops[op];
    s.(ops := s.ops[op := Snapping(o.child, o.parent, Gen(s, o.parent), s.vms[o.parent].finished, lock)], held := s.held[lock := op])
  }

  lemma PauseStep(s: State, op: nat, lock: nat)
    requires op in s.ops && s.ops[op].Forking? && Free(s, s.ops[op].parent, lock)
    requires s.ops[op].parent in s.vms && !Fresh(s, s.ops[op].parent)
    ensures Enabled(s, Pause(op, lock)) && Next(s, Pause(op, lock)) == Paused(s, op, lock)
  {
    hide EndNext, OtherNext;
  }

  lemma WriteStep(s: State, op: nat)
    requires op in s.ops && s.ops[op].Snapping? && s.ops[op].parent in s.vms
    ensures Enabled(s, SnapWrites(op))
    ensures var o := s.ops[op];
            Next(s, SnapWrites(op)) == Write(s, o.parent, s.vms[o.parent].vm, s.vms[o.parent].effects)
                                         .(ops := s.ops[op := Snapped(o.child, o.parent, o.at, o.need, o.lock)])
  {
    hide EndNext, OtherNext;
  }

  lemma RecordStep(s: State, op: nat)
    requires op in s.ops && s.ops[op].Snapped?
    ensures Enabled(s, SnapOk(op))
    ensures var o := s.ops[op];
            Next(s, SnapOk(op)) == Record(s, o.parent, o.at).(ops := s.ops[op := Restoring(o.child, o.parent, o.need)], held := s.held - {o.lock})
  {
    hide EndNext, OtherNext;
  }

  lemma TakesSnapshot(s: State, op: nat, lock: nat)
    requires op in s.ops && s.ops[op].Forking? && Free(s, s.ops[op].parent, lock)
    requires s.ops[op].parent in s.vms && !Fresh(s, s.ops[op].parent)
    ensures Enabled(s, Pause(op, lock)) && Enabled(Next(s, Pause(op, lock)), SnapWrites(op))
    ensures var t := Next(Next(s, Pause(op, lock)), SnapWrites(op)); Enabled(t, SnapOk(op)) && Next(t, SnapOk(op)) == Taken(s, op)
  {
    hide Next, Enabled, Fresh;
    PauseStep(s, op, lock);
    SnapRest(Next(s, Pause(op, lock)), op);
    var t := Paused(s, op, lock);
    assert t.held - {lock} == s.held;
    assert t.ops[op := Restoring(s.ops[op].child, s.ops[op].parent, s.vms[s.ops[op].parent].finished)] == Taken(s, op).ops;
  }

  lemma SnapRest(s: State, op: nat)
    requires op in s.ops && s.ops[op].Snapping? && s.ops[op].parent in s.vms
    ensures Enabled(s, SnapWrites(op)) && Enabled(Next(s, SnapWrites(op)), SnapOk(op))
    ensures var o := s.ops[op];
            Next(Next(s, SnapWrites(op)), SnapOk(op)) ==
            Record(Write(s, o.parent, s.vms[o.parent].vm, s.vms[o.parent].effects), o.parent, o.at)
              .(ops := s.ops[op := Restoring(o.child, o.parent, o.need)], held := s.held - {o.lock})
  {
    hide Next, Enabled;
    WriteStep(s, op);
    var u := Next(s, SnapWrites(op));
    RecordStep(u, op);
    assert u.ops[op := Restoring(s.ops[op].child, s.ops[op].parent, s.ops[op].need)] ==
           s.ops[op := Restoring(s.ops[op].child, s.ops[op].parent, s.ops[op].need)];
  }

  lemma Restores(s: State, op: nat)
    requires op in s.ops && s.ops[op].Forking? && s.ops[op].parent in s.vms && s.ops[op].child != s.ops[op].parent
    ensures Enabled(Taken(s, op), RestoreOk(op))
    ensures var o, p, t := s.ops[op], s.vms[s.ops[op].parent], Next(Taken(s, op), RestoreOk(op));
            && t.vms == s.vms[o.child := Guest(s.clock + 1, p.effects, p.effects)]
            && t.files == s.files[o.parent := Snapshot(s.clock, p.vm, p.effects)]
            && Fresh(t, o.parent) && t.held == s.held && t.ops == s.ops - {op}
  {
    hide SpawnNext, OtherNext, Fewer;
  }

  /** A fork of a parent whose snapshot is not current writes one: the child starts with
      everything the parent's VM holds, and the snapshot is current afterwards. */
  lemma ForkSnapshots(s: State, op: nat, lock: nat)
    requires Inv(s) && op in s.ops && s.ops[op].Forking? && Free(s, s.ops[op].parent, lock)
    requires s.ops[op].parent in s.vms && !Fresh(s, s.ops[op].parent)
    ensures var o, run := s.ops[op], [Pause(op, lock)] + ([SnapWrites(op)] + ([SnapOk(op)] + [RestoreOk(op)]));
            && Legal(s, run) && Takes(s, run)
            && var t, p := After(s, run), s.vms[s.ops[op].parent];
               && t.vms == s.vms[o.child := Guest(s.clock + 1, p.effects, p.effects)]
               && t.files == s.files[o.parent := Snapshot(s.clock, p.vm, p.effects)]
               && Fresh(t, o.parent) && t.held == s.held && t.ops == s.ops - {op}
  {
    hide Next, Fresh, Taken, Enabled, Free, Inv;
    OtherVm(s, op);
    TakesSnapshot(s, op, lock);
    Restores(s, op);
    var t := Next(s, Pause(op, lock));
    var u := Next(t, SnapWrites(op));
    Two(u, SnapOk(op), RestoreOk(op));
    Cons(t, SnapWrites(op), [SnapOk(op)] + [RestoreOk(op)]);
    Cons(s, Pause(op, lock), [SnapWrites(op)] + ([SnapOk(op)] + [RestoreOk(op)]));
  }

  /** A branch being spawned has no VM yet. */
  lemma OtherVm(s: State, op: nat)
    requires Inv(s) && op in s.ops && Child(s.ops[op]).Some?
    ensures Child(s.ops[op]).value !in s.vms
  {
    hide Locked, Numbered, Current, OpsOk;
    Counted(s, op);
  }

  /** A fork of a branch without VM goes through on what is left on disk. */
  lemma ForkSalvages(s: State, op: nat, lock: nat)
    requires Inv(s) && op in s.ops && s.ops[op].Forking? && Free(s, s.ops[op].parent, lock)
    requires s.ops[op].parent !in s.vms && s.ops[op].parent in s.files
    ensures var o, run := s.ops[op], [Leftover(op, lock)] + [SalvageOk(op)];
            && Legal(s, run) && Takes(s, run)
            && var t := After(s, run);
               && t.vms == s.vms[o.child := Guest(s.clock, s.files[o.parent].content, s.files[o.parent].content)]
               && t.files == s.files && t.held == s.held && t.ops == s.ops - {op} && o.child !in t.pending
  {
    hide Locked, Spawns, Numbered, Current, OpsOk, Fewer;
    Two(s, Leftover(op, lock), SalvageOk(op));
  }

  /** Without files there is nothing to restore: such a fork can only fail. */
  lemma ForkWithoutPair(s: State, op: nat, l: Label)
    requires op in s.ops && s.ops[op].Restoring? && s.ops[op].parent !in s.files && !l.MakeLock? && l.op == op
    ensures Enabled(s, l) <==> l == SpawnFails(op)
  {
  }

  /** A boot goes through and leaves a VM without effects. */
  lemma BootCompletes(s: State, op: nat, b: Id)
    requires op !in s.ops && b !in s.vms && b !in s.pending
    ensures var run := [SpawnRoot(op, b)] + [BootOk(op)];
            Legal(s, run) && Takes(s, run) && After(s, run) == s.(vms := s.vms[b := Guest(s.clock, {}, {})], clock := s.clock + 1)
  {
    SpawnStep(s, op, b);
    BootStep(Next(s, SpawnRoot(op, b)), op);
    hide Next, Enabled;
    var t := Next(s, SpawnRoot(op, b));
    assert t.ops - {op} == s.ops && t.pending - {b} == s.pending;
    Two(s, SpawnRoot(op, b), BootOk(op));
  }

  lemma SpawnStep(s: State, op: nat, b: Id)
    requires op !in s.ops && b !in s.vms && b !in s.pending
    ensures Enabled(s, SpawnRoot(op, b)) && Next(s, SpawnRoot(op, b)) == s.(pending := s.pending + {b}, ops := s.ops[op := Booting(b)])
  {
    hide EndNext, OtherNext;
  }

  lemma BootStep(s: State, op: nat)
    requires op in s.ops && s.ops[op].Booting?
    ensures Enabled(s, BootOk(op))
    ensures Next(s, BootOk(op)) == s.(vms := s.vms[s.ops[op].child := Guest(s.clock, {}, {})], clock := s.clock + 1,
                                      pending := s.pending - {s.ops[op].child}, ops := s.ops - {op})
  {
    hide SpawnNext, OtherNext, Fewer;
  }

  lemma StartStep(s: State, op: nat, b: Id, lock: nat)
    requires op !in s.ops && b in s.vms && Free(s, b, lock)
    ensures Enabled(s, ExecStart(op, b, lock))
    ensures Next(s, ExecStart(op, b, lock)) ==
            s.(ops := s.ops[op := Execing(b, s.vms[b].vm, s.clock, lock)], held := s.held[lock := op], clock := s.clock + 1)
  {
    hide SpawnNext, EndNext;
  }

  lemma LandStep(s: State, op: nat)
    requires op in s.ops && s.ops[op].Execing? && s.ops[op].branch in s.vms && s.vms[s.ops[op].branch].vm == s.ops[op].vm
    ensures Enabled(s, ExecLands(op))
    ensures var b := s.ops[op].branch;
            Next(s, ExecLands(op)) == s.(vms := s.vms[b := s.vms[b].(effects := s.vms[b].effects + {s.ops[op].exec})])
  {
    hide SpawnNext, EndNext;
  }

  lemma EndStep(s: State, op: nat)
    requires op in s.ops && s.ops[op].Execing? && s.ops[op].branch in s.vms
    ensures Enabled(s, ExecEnd(op))
    ensures var o := s.ops[op];
            Next(s, ExecEnd(op)) == s.(ops := s.ops - {op}, held := s.held - {o.lock}, gen := s.gen[o.branch := Gen(s, o.branch) + 1],
                                       vms := s.vms[o.branch := Ended(s.vms[o.branch], o)])
  {
    hide SpawnNext, EndNext;
  }

  /** An exec goes through: its effect is there and counts, and no snapshot taken before is current. */
  lemma ExecCompletes(s: State, op: nat, b: Id, lock: nat)
    requires Inv(s) && op !in s.ops && b in s.vms && Free(s, b, lock)
    ensures var run := [ExecStart(op, b, lock)] + ([ExecLands(op)] + [ExecEnd(op)]);
            && Legal(s, run) && Takes(s, run)
            && var t, g := After(s, run), s.vms[b];
               && t.vms == s.vms[b := Guest(g.vm, g.effects + {s.clock}, g.finished + {s.clock})]
               && !Fresh(t, b) && t.files == s.files && t.held == s.held && t.ops == s.ops
  {
    hide Next, Enabled, Inv;
    NotAhead(s, b);
    StartStep(s, op, b, lock);
    var t := Next(s, ExecStart(op, b, lock));
    LandStep(t, op);
    var u := Next(t, ExecLands(op));
    EndStep(u, op);
    assert u.held - {lock} == s.held && u.ops - {op} == s.ops;
    Three(s, ExecStart(op, b, lock), ExecLands(op), ExecEnd(op));
  }

  lemma NotAhead(s: State, b: Id)
    requires Inv(s)
    ensures b in s.snapshots && b in s.snapGen ==> s.snapGen[b] <= Gen(s, b)
  {
    hide Locked, Spawns, Numbered, OpsOk;
    assert CurrentAt(s, b);
  }

  lemma CheckStep(s: State, op: nat, b: Id, lock: nat)
    requires op !in s.ops && b in s.vms && Free(s, b, lock)
    ensures Enabled(s, CheckStart(op, b, lock))
    ensures Next(s, CheckStart(op, b, lock)) ==
            s.(ops := s.ops[op := Checking(b, s.vms[b].vm, s.vms[b].effects, Gen(s, b), lock)], held := s.held[lock := op])
  {
    hide SpawnNext, EndNext;
  }

  lemma CheckWriteStep(s: State, op: nat)
    requires op in s.ops && s.ops[op].Checking?
    ensures Enabled(s, CheckWrites(op))
    ensures var o := s.ops[op];
            Next(s, CheckWrites(op)) == Write(s, o.branch, o.vm, Captured(s, o)).(ops := s.ops[op := Checked(o.branch, o.at, o.lock)])
  {
    hide SpawnNext, EndNext;
  }

  lemma CheckOkStep(s: State, op: nat)
    requires op in s.ops && s.ops[op].Checked?
    ensures Enabled(s, CheckOk(op))
    ensures Next(s, CheckOk(op)) == Record(s, s.ops[op].branch, s.ops[op].at).(ops := s.ops - {op}, held := s.held - {s.ops[op].lock})
  {
    hide SpawnNext, EndNext;
  }

  /** The rest of a checkpoint of a VM that is still the branch's. */
  lemma CheckRest(s: State, op: nat)
    requires op in s.ops && s.ops[op].Checking? && s.ops[op].branch in s.vms && s.vms[s.ops[op].branch].vm == s.ops[op].vm
    ensures Enabled(s, CheckWrites(op)) && Enabled(Next(s, CheckWrites(op)), CheckOk(op))
    ensures var o := s.ops[op];
            Next(Next(s, CheckWrites(op)), CheckOk(op)) ==
            Record(Write(s, o.branch, o.vm, s.vms[o.branch].effects), o.branch, o.at).(ops := s.ops - {op}, held := s.held - {o.lock})
  {
    hide Next, Enabled;
    CheckWriteStep(s, op);
    var u := Next(s, CheckWrites(op));
    CheckOkStep(u, op);
    assert u.ops - {op} == s.ops - {op};
  }

  /** A checkpoint goes through: the pair holds everything the VM holds and is current. */
  lemma CheckCompletes(s: State, op: nat, b: Id, lock: nat)
    requires op !in s.ops && b in s.vms && Free(s, b, lock)
    ensures var run := [CheckStart(op, b, lock)] + ([CheckWrites(op)] + [CheckOk(op)]);
            && Legal(s, run) && Takes(s, run)
            && var t := After(s, run);
               && t.files == s.files[b := Snapshot(s.clock, s.vms[b].vm, s.vms[b].effects)]
               && Fresh(t, b) && t.vms == s.vms && t.held == s.held && t.ops == s.ops
  {
    hide Next, Enabled, Legal, Takes, After, Fresh, Free;
    Checkpointed(s, op, b, lock);
    Three(s, CheckStart(op, b, lock), CheckWrites(op), CheckOk(op));
  }

  lemma Checkpointed(s: State, op: nat, b: Id, lock: nat)
    requires op !in s.ops && b in s.vms && Free(s, b, lock)
    ensures Enabled(s, CheckStart(op, b, lock))
    ensures var u := Next(s, CheckStart(op, b, lock));
            && Enabled(u, CheckWrites(op)) && Enabled(Next(u, CheckWrites(op)), CheckOk(op))
            && var t := Next(Next(u, CheckWrites(op)), CheckOk(op));
               && t.files == s.files[b := Snapshot(s.clock, s.vms[b].vm, s.vms[b].effects)]
               && Fresh(t, b) && t.vms == s.vms && t.held == s.held && t.ops == s.ops
  {
    hide Next, Enabled;
    CheckStep(s, op, b, lock);
    var u := Next(s, CheckStart(op, b, lock));
    CheckRest(u, op);
    assert u.held - {lock} == s.held && u.ops - {op} == s.ops;
  }

  /** A kill with nothing of the branch in flight goes through and leaves nothing of it. */
  lemma KillCompletes(s: State, op: nat, b: Id)
    requires op !in s.ops && Forks(s, b) == 0 && b !in s.pending
    ensures Enabled(s, KillPops(op, b)) && Enabled(Next(s, KillPops(op, b)), KillCleans(op, true))
    ensures var t := Next(Next(s, KillPops(op, b)), KillCleans(op, true));
            && t.vms == s.vms - {b} && t.files == s.files - {b} && b !in t.snapshots && b !in t.locks && b !in t.gen && t.ops == s.ops
            && (forall x | x != b :: (Fresh(t, x) <==> Fresh(s, x)) && (x in t.locks <==> x in s.locks))
  {
    hide EndNext, SpawnNext;
    var t := Next(s, KillPops(op, b));
    assert t.ops - {op} == s.ops;
  }

  lemma SpawnCanFail(s: State, op: nat, l: Label)
    requires op in s.ops && Child(s.ops[op]).Some?
    requires l == if s.ops[op].Snapping? || s.ops[op].Snapped? then SnapFails(op) else SpawnFails(op)
    ensures Enabled(s, l) && op !in Next(s, l).ops && (Holds(s.ops[op]).Some? ==> Holds(s.ops[op]).value !in Next(s, l).held)
  {
    hide SpawnNext, OtherNext, Fewer;
  }

  lemma OtherCanEnd(s: State, op: nat, l: Label)
    requires op in s.ops && Child(s.ops[op]).None?
    requires l == if s.ops[op].Cleaning? then KillCleans(op, true)
                  else if s.ops[op].Checking? || s.ops[op].Checked? then CheckFails(op)
                  else if s.ops[op].branch in s.vms then ExecEnd(op) else ExecOrphaned(op)
    ensures Enabled(s, l) && op !in Next(s, l).ops && (Holds(s.ops[op]).Some? ==> Holds(s.ops[op]).value !in Next(s, l).held)
  {
    hide SpawnNext, EndNext;
  }

  /** Whatever is in flight can end, and gives its lock back when it does. */
  lemma NeverStuck(s: State, op: nat) returns (l: Label)
    requires op in s.ops
    ensures Enabled(s, l) && !l.KillPops? && !l.MakeLock? && op !in Next(s, l).ops
    ensures Holds(s.ops[op]).Some? ==> Holds(s.ops[op]).value !in Next(s, l).held
  {
    hide Enabled, Next;
    var o := s.ops[op];
    if Child(o).Some? {
      l := if o.Snapping? || o.Snapped? then SnapFails(op) else SpawnFails(op);
      SpawnCanFail(s, op, l);
    } else {
      l := if o.Cleaning? then KillCleans(op, true)
           else if o.Checking? || o.Checked? then CheckFails(op)
           else if o.branch in s.vms then ExecEnd(op) else ExecOrphaned(op);
      OtherCanEnd(s, op, l);
    }
  }

  /** The lock object in the dictionary was made for its branch. */
  ghost predicate LocksOwned(s: State) {
    forall b | b in s.locks :: s.locks[b] in s.owner && s.owner[s.locks[b]] == b
  }

  lemma SpawnLocks(s: State, l: Label)
    requires Enabled(s, l) && SpawnLabel(l)
    ensures Next(s, l).locks == s.locks && Next(s, l).owner == s.owner
  {
    hide OtherNext, Fewer, EndNext;
    if EndsSpawn(l) { EndLocks(s, l); }
  }

  lemma EndLocks(s: State, l: Label)
    requires Enabled(s, l) && EndsSpawn(l)
    ensures Next(s, l).locks == s.locks && Next(s, l).owner == s.owner
  {
    hide OtherNext, Fewer, SpawnNext;
  }

  lemma LocksOwnedStep(s: State, l: Label)
    requires Inv(s) && LocksOwned(s) && Enabled(s, l)
    ensures LocksOwned(Next(s, l))
  {
    hide Locked, Spawns, Current, OpsOk, SpawnNext, EndNext;
    if SpawnLabel(l) { SpawnLocks(s, l); }
  }

  lemma {:induction false} LocksOwnedRun(s: State, run: seq<Label>)
    requires Inv(s) && LocksOwned(s) && Legal(s, run)
    ensures Takes(s, run) && Inv(After(s, run)) && LocksOwned(After(s, run))
    decreases |run|
  {
    hide Inv, Enabled, Next, Overlaps, LocksOwned;
    if run != [] {
      StepInv(s, run[0]);
      LocksOwnedStep(s, run[0]);
      LocksOwnedRun(Next(s, run[0]), run[1..]);
    }
  }

  lemma MakeStep(s: State, b: Id)
    requires Inv(s) && b !in s.locks
    ensures Enabled(s, MakeLock(b)) && Free(Next(s, MakeLock(b)), b, s.clock)
  {
    hide SpawnNext, EndNext, Locked, Spawns, Current, OpsOk;
  }

  /** After every run the lock of any branch can be had within one more step: it is free, or
      it can be made, or its holder can end. */
  lemma LockAvailable(run: seq<Label>, b: Id) returns (more: seq<Label>, lock: nat)
    requires Legal(INITIAL, run)
    ensures Takes(INITIAL, run) && |more| <= 1
    ensures var s := After(INITIAL, run); Legal(s, more) && Takes(s, more) && Free(After(s, more), b, lock)
  {
    hide Inv, Next, Enabled;
    InitialInv();
    LocksOwnedRun(INITIAL, run);
    var s := After(INITIAL, run);
    if b !in s.locks {
      MakeStep(s, b);
      Cons(s, MakeLock(b), []);
      more, lock := [MakeLock(b)] + [], s.clock;
    } else {
      lock, more := s.locks[b], [];
      if lock in s.held {
        Held(s, lock);
        var l := NeverStuck(s, s.held[lock]);
        NewOwner(s, l);
        Cons(s, l, []);
        more := [l] + [];
      }
    }
  }

  lemma Held(s: State, lock: nat)
    requires Inv(s) && lock in s.held
    ensures s.held[lock] in s.ops && Holds(s.ops[s.held[lock]]) == Some(lock)
  {
    hide Spawns, Numbered, Current, OpsOk;
  }
}
