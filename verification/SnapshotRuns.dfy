/** What the snapshot bookkeeping promises over whole runs. */
module SnapshotRuns {
  import opened Common
  import opened Snapshots

  /** Every step can be taken in turn and no kill overlaps a checkpoint of the same branch. */
  ghost predicate Legal(s: State, run: seq<Label>)
    decreases |run|
  {
    run == [] || (Enabled(s, run[0]) && !Overlaps(s, run[0]) && Legal(Next(s, run[0]), run[1..]))
  }

  predicate Takes(s: State, run: seq<Label>)
    decreases |run|
  {
    run == [] || (Enabled(s, run[0]) && Takes(Next(s, run[0]), run[1..]))
  }

  function After(s: State, run: seq<Label>): State
    requires Takes(s, run)
    decreases |run|
  {
    if run == [] then s else After(Next(s, run[0]), run[1..])
  }

  lemma {:induction false} RunInv(s: State, run: seq<Label>)
    requires Inv(s) && Legal(s, run)
    ensures Takes(s, run) && Inv(After(s, run))
    decreases |run|
  {
    hide Inv, Enabled, Next, Overlaps;
    if run != [] {
      StepInv(s, run[0]);
      RunInv(Next(s, run[0]), run[1..]);
    }
  }

  /** A snapshot that counts as current is of the branch's own VM and holds every ended exec. */
  ghost predicate Honest(s: State, b: Id) {
    Fresh(s, b) ==> OnDisk(s, b, if b in s.vms then s.vms[b].finished else {})
  }

  lemma SnapshotCurrent(run: seq<Label>, b: Id)
    requires Legal(INITIAL, run)
    ensures Takes(INITIAL, run) && Honest(After(INITIAL, run), b)
  {
    InitialInv();
    RunInv(INITIAL, run);
    InvHonest(After(INITIAL, run), b);
  }

  lemma InvHonest(s: State, b: Id)
    requires Inv(s)
    ensures Honest(s, b)
  {
    hide Locked, Spawns, OpsOk, Numbered;
    assert CurrentAt(s, b);
  }

  /******* What a fork hands out *******/

  /** `op` is still the fork of `child` from `parent` that entered its lock region when `need` had ended. */
  predicate UnderWay(s: State, op: nat, child: Id, parent: Id, need: set<nat>) {
    op in s.ops && var o := s.ops[op];
    (o.Snapping? || o.Snapped? || o.Restoring?) && o.child == child && o.parent == parent && o.need == need
  }

  /** The fork does not end during the run. */
  predicate Pending(run: seq<Label>, op: nat) {
    forall l | l in run && EndsSpawn(l) :: l.op != op
  }

  lemma UnderWayStep(s: State, l: Label, op: nat, child: Id, parent: Id, need: set<nat>)
    requires Enabled(s, l) && UnderWay(s, op, child, parent, need) && !(EndsSpawn(l) && l.op == op)
    ensures UnderWay(Next(s, l), op, child, parent, need)
  {
    if l.MakeLock? || l.op != op { Unmoved(s, l, op); }
  }

  lemma {:induction false} StaysUnderWay(s: State, run: seq<Label>, op: nat, child: Id, parent: Id, need: set<nat>)
    requires Inv(s) && Legal(s, run) && Pending(run, op) && UnderWay(s, op, child, parent, need)
    ensures Takes(s, run) && Inv(After(s, run)) && UnderWay(After(s, run), op, child, parent, need)
    decreases |run|
  {
    hide Inv, Enabled, Next, Overlaps, UnderWay;
    if run != [] {
      StepInv(s, run[0]);
      UnderWayStep(s, run[0], op, child, parent, need);
      StaysUnderWay(Next(s, run[0]), run[1..], op, child, parent, need);
    }
  }

  /** A fork that finds its parent with a VM: whatever happens until it restores -- its own
      snapshot, other forks, execs, teardowns -- the parent keeps its VM, and the pair on disk
      holds every exec that had ended when the fork entered its lock region. */
  lemma SourceCurrent(s: State, l: Label, run: seq<Label>)
    requires Inv(s) && Enabled(s, l) && (l.Reuse? || l.Pause?) && Legal(Next(s, l), run) && Pending(run, l.op)
    ensures Takes(Next(s, l), run) && s.ops[l.op].parent in s.vms
    ensures var o, t := s.ops[l.op], After(Next(s, l), run);
            && UnderWay(t, l.op, o.child, o.parent, s.vms[o.parent].finished) && o.parent in t.vms
            && (t.ops[l.op].Restoring? ==> OnDisk(t, o.parent, s.vms[o.parent].finished))
  {
    hide Inv;
    var o := s.ops[l.op];
    StepInv(s, l);
    StaysUnderWay(Next(s, l), run, l.op, o.child, o.parent, s.vms[o.parent].finished);
    Waiting(After(Next(s, l), run), l.op, o.child, o.parent, s.vms[o.parent].finished);
  }

  lemma Waiting(s: State, op: nat, child: Id, parent: Id, need: set<nat>)
    requires Inv(s) && UnderWay(s, op, child, parent, need)
    ensures parent in s.vms && (s.ops[op].Restoring? ==> OnDisk(s, parent, need))
  {
    hide Locked, Spawns, Numbered, Current;
    assert OpOk(s, s.ops[op]);
  }

  /** So the child that restores starts with all of them. */
  lemma ChildInherits(s: State, l: Label, run: seq<Label>)
    requires Inv(s) && Enabled(s, l) && (l.Reuse? || l.Pause?) && Legal(Next(s, l), run) && Pending(run, l.op)
    ensures Takes(Next(s, l), run) && s.ops[l.op].parent in s.vms
    ensures var o, t := s.ops[l.op], After(Next(s, l), run);
            Enabled(t, RestoreOk(l.op)) ==>
              && o.child in Next(t, RestoreOk(l.op)).vms
              && s.vms[o.parent].finished <= Next(t, RestoreOk(l.op)).vms[o.child].effects
  {
    SourceCurrent(s, l, run);
  }

  /** Steps that remove the pair of `b`. */
  predicate Removes(s: State, l: Label, b: Id)
    requires Enabled(s, l)
  {
    l.KillCleans? && s.ops[l.op].branch == b
  }

  predicate Preserved(s: State, run: seq<Label>, b: Id)
    requires Takes(s, run)
    decreases |run|
  {
    run == [] || (!Removes(s, run[0], b) && Preserved(Next(s, run[0]), run[1..], b))
  }

  lemma FileStays(s: State, l: Label, b: Id)
    requires Enabled(s, l) && b in s.files && !Removes(s, l, b)
    ensures b in Next(s, l).files
  {
    hide SpawnNext, EndNext;
    if SpawnLabel(l) { SpawnKeepsFiles(s, l, b); }
  }

  lemma EndKeepsFiles(s: State, l: Label, b: Id)
    requires Enabled(s, l) && EndsSpawn(l) && b in s.files
    ensures b in Next(s, l).files
  {
    hide OtherNext, SpawnNext, Fewer;
  }

  lemma SpawnKeepsFiles(s: State, l: Label, b: Id)
    requires Enabled(s, l) && SpawnLabel(l) && b in s.files
    ensures b in Next(s, l).files
  {
    hide OtherNext, EndNext, Fewer;
    if EndsSpawn(l) { EndKeepsFiles(s, l, b); }
  }

  /** A pair once written is there to restore from until a teardown of the branch removes it. */
  lemma {:induction false} PairStays(s: State, run: seq<Label>, b: Id)
    requires Takes(s, run) && b in s.files && Preserved(s, run, b)
    ensures b in After(s, run).files
    decreases |run|
  {
    hide Enabled, Next, Removes;
    if run != [] {
      FileStays(s, run[0], b);
      PairStays(Next(s, run[0]), run[1..], b);
    }
  }

  /******* A parent without a VM *******/

  predicate NotRespawned(run: seq<Label>, p: Id) {
    forall l | l in run && (l.SpawnRoot? || l.SpawnChild?) :: l.id != p
  }

  /** `p` is dead since `s`, and of its pair at most what there was is left. */
  ghost predicate Dead(s: State, t: State, p: Id) {
    && p !in t.vms && p !in t.pending
    && (p in t.files ==> p in s.files && t.files[p] == s.files[p])
    && forall op | op in t.ops :: !(t.ops[op].Checking? && t.ops[op].branch == p)
  }

  lemma DeadStart(s: State, l: Label)
    requires Inv(s) && Enabled(s, l) && l.KillPops? && !Overlaps(s, l)
    ensures Dead(s, Next(s, l), l.id)
  {
    hide Locked, Spawns, Numbered, Current, OpsOk;
    var t := Next(s, l);
    forall op | op in t.ops ensures !(t.ops[op].Checking? && t.ops[op].branch == l.id) {
      if op in s.ops { assert !Untimely(s, s.ops[op], l.id); }
    }
  }

  lemma EndDeadFiles(s: State, t: State, l: Label, p: Id)
    requires Inv(t) && Enabled(t, l) && EndsSpawn(l) && Dead(s, t, p)
    ensures p in Next(t, l).files ==> p in s.files && Next(t, l).files[p] == s.files[p]
  {
    hide OtherNext, SpawnNext, Fewer;
    hide Locked, Spawns, Numbered, Current;
  }

  lemma SpawnDeadFiles(s: State, t: State, l: Label, p: Id)
    requires Inv(t) && Enabled(t, l) && SpawnLabel(l) && Dead(s, t, p)
    ensures p in Next(t, l).files ==> p in s.files && Next(t, l).files[p] == s.files[p]
  {
    hide OtherNext, EndNext, Fewer;
    if EndsSpawn(l) {
      EndDeadFiles(s, t, l, p);
    } else {
      hide Locked, Spawns, Numbered, Current;
      if l.SnapWrites? { assert OpOk(t, t.ops[l.op]); }
    }
  }

  lemma DeadFiles(s: State, t: State, l: Label, p: Id)
    requires Inv(t) && Enabled(t, l) && Dead(s, t, p)
    ensures p in Next(t, l).files ==> p in s.files && Next(t, l).files[p] == s.files[p]
  {
    hide Inv, SpawnNext, EndNext;
    if SpawnLabel(l) { SpawnDeadFiles(s, t, l, p); }
  }

  lemma EndDeadVms(s: State, t: State, l: Label, p: Id)
    requires Inv(t) && Enabled(t, l) && EndsSpawn(l) && Dead(s, t, p) && !((l.SpawnRoot? || l.SpawnChild?) && l.id == p)
    ensures p !in Next(t, l).vms && p !in Next(t, l).pending
  {
    hide OtherNext, SpawnNext, Fewer;
    hide Locked, Numbered, Current, OpsOk, ForksOf;
    if l.op in t.ops { Counted(t, l.op); }
    hide Spawns;
  }

  lemma SpawnDeadVms(s: State, t: State, l: Label, p: Id)
    requires Inv(t) && Enabled(t, l) && SpawnLabel(l) && Dead(s, t, p) && !((l.SpawnRoot? || l.SpawnChild?) && l.id == p)
    ensures p !in Next(t, l).vms && p !in Next(t, l).pending
  {
    hide OtherNext, EndNext, Fewer;
    if EndsSpawn(l) {
      EndDeadVms(s, t, l, p);
    } else {
      hide Locked, Numbered, Current, OpsOk, ForksOf;
      if l.op in t.ops { Counted(t, l.op); }
      hide Spawns;
    }
  }

  lemma DeadVms(s: State, t: State, l: Label, p: Id)
    requires Inv(t) && Enabled(t, l) && Dead(s, t, p) && !((l.SpawnRoot? || l.SpawnChild?) && l.id == p)
    ensures p !in Next(t, l).vms && p !in Next(t, l).pending
  {
    hide Inv, SpawnNext, EndNext;
    if SpawnLabel(l) { SpawnDeadVms(s, t, l, p); }
  }

  lemma DeadOps(s: State, t: State, l: Label, p: Id, op: nat)
    requires Enabled(t, l) && Dead(s, t, p) && op in Next(t, l).ops
    ensures !(Next(t, l).ops[op].Checking? && Next(t, l).ops[op].branch == p)
  {
    hide SpawnNext, EndNext, OtherNext;
    if l.MakeLock? || op != l.op { Unmoved(t, l, op); } else if Next(t, l).ops[op].Checking? { NewChecks(t, l); }
  }

  /** A checkpoint starts only on a branch with a VM. */
  lemma NewChecks(t: State, l: Label)
    requires Enabled(t, l) && !l.MakeLock? && l.op in Next(t, l).ops && Next(t, l).ops[l.op].Checking?
    ensures Next(t, l).ops[l.op].branch in t.vms || (l.op in t.ops && t.ops[l.op] == Next(t, l).ops[l.op])
  {
    hide SpawnNext, EndNext;
    if EndsSpawn(l) { EndRemoves(t, l); } else if SpawnLabel(l) { SpawnsNoCheck(t, l); }
  }

  lemma SpawnsNoCheck(t: State, l: Label)
    requires Enabled(t, l) && SpawnLabel(l) && !EndsSpawn(l) && l.op in Next(t, l).ops
    ensures !Next(t, l).ops[l.op].Checking?
  {
    hide OtherNext, EndNext;
  }

  lemma {:induction false} StaysDead(s: State, t: State, run: seq<Label>, p: Id)
    requires Inv(t) && Legal(t, run) && Dead(s, t, p) && NotRespawned(run, p)
    ensures Takes(t, run) && Inv(After(t, run)) && Dead(s, After(t, run), p)
    decreases |run|
  {
    hide Inv, Enabled, Next, Overlaps;
    if run != [] {
      StepInv(t, run[0]);
      DeadFiles(s, t, run[0], p);
      DeadVms(s, t, run[0], p);
      forall op | op in Next(t, run[0]).ops
        ensures !(Next(t, run[0]).ops[op].Checking? && Next(t, run[0]).ops[op].branch == p)
      {
        DeadOps(s, t, run[0], p, op);
      }
      StaysDead(s, Next(t, run[0]), run[1..], p);
    }
  }

  /** A fork of a parent that was killed at `s` and whose pair is not yet removed restores
      exactly what the pair held at the kill.  It has every exec that had ended on the parent
      if and only if the pair had them then; a snapshot that was current at the kill is enough. */
  lemma LeftoverExact(s: State, l: Label, run: seq<Label>, op: nat)
    requires Inv(s) && l.KillPops? && Enabled(s, l) && !Overlaps(s, l) && l.id in s.vms
    requires Legal(Next(s, l), run) && NotRespawned(run, l.id)
    ensures Takes(Next(s, l), run)
    ensures var t := After(Next(s, l), run);
            Enabled(t, SalvageOk(op)) && t.ops[op].parent == l.id ==>
              && l.id in s.files && t.ops[op].child in Next(t, SalvageOk(op)).vms
              && Next(t, SalvageOk(op)).vms[t.ops[op].child].effects == s.files[l.id].content
              && (s.vms[l.id].finished <= Next(t, SalvageOk(op)).vms[t.ops[op].child].effects <==> s.vms[l.id].finished <= s.files[l.id].content)
              && (Fresh(s, l.id) ==> s.vms[l.id].finished <= Next(t, SalvageOk(op)).vms[t.ops[op].child].effects)
  {
    hide Inv, Overlaps, Next;
    DeadStart(s, l);
    StepInv(s, l);
    StaysDead(s, Next(s, l), run, l.id);
    InvHonest(s, l.id);
    var t := After(Next(s, l), run);
    if Enabled(t, SalvageOk(op)) && t.ops[op].parent == l.id { Salvaged(s, t, l.id, op); }
  }

  lemma Salvaged(s: State, t: State, p: Id, op: nat)
    requires Dead(s, t, p) && Enabled(t, SalvageOk(op)) && t.ops[op].parent == p
    ensures p in s.files && t.ops[op].child in Next(t, SalvageOk(op)).vms
    ensures Next(t, SalvageOk(op)).vms[t.ops[op].child].effects == s.files[p].content
  {
  }

  /** The teardown removes the pair, and nothing of a dead branch can write another. */
  lemma CleanedDead(s: State, t: State, l: Label)
    requires Enabled(t, l) && l.KillCleans? && Dead(s, t, t.ops[l.op].branch)
    ensures t.ops[l.op].branch !in Next(t, l).files && Dead(Next(t, l), Next(t, l), t.ops[l.op].branch)
  {
    var p := t.ops[l.op].branch;
    forall op | op in Next(t, l).ops ensures !(Next(t, l).ops[op].Checking? && Next(t, l).ops[op].branch == p) {
      assert op in t.ops && t.ops[op] == Next(t, l).ops[op];
    }
  }

  /** A fork of a branch without VM and without files can only fail. */
  lemma OnlyFails(s: State, b: Id, l: Label)
    requires Inv(s) && b !in s.vms && b !in s.files && !l.MakeLock? && l.op in s.ops && Parent(s.ops[l.op]) == Some(b)
    ensures Enabled(s, l) <==> l == SpawnFails(l.op)
  {
    hide Locked, Spawns, Numbered, Current;
    assert OpOk(s, s.ops[l.op]);
  }

  /** Killed at `s`, torn down after `run`: until the branch is spawned again nothing of it is
      left, neither VM nor files, and a fork from it can do nothing but fail. */
  lemma KilledIsGone(s: State, kill: Label, run: seq<Label>, clean: Label, rest: seq<Label>)
    requires Inv(s) && kill.KillPops? && Enabled(s, kill) && !Overlaps(s, kill)
    requires Legal(Next(s, kill), run) && Takes(Next(s, kill), run) && NotRespawned(run, kill.id)
    requires var t := After(Next(s, kill), run);
             && clean.KillCleans? && Enabled(t, clean) && t.ops[clean.op].branch == kill.id
             && Legal(Next(t, clean), rest) && NotRespawned(rest, kill.id)
    ensures var t := After(Next(s, kill), run);
            && Takes(Next(t, clean), rest)
            && var u := After(Next(t, clean), rest);
               && kill.id !in u.files && kill.id !in u.vms && kill.id !in u.pending
               && forall l: Label | !l.MakeLock? && l.op in u.ops && Parent(u.ops[l.op]) == Some(kill.id) ::
                    Enabled(u, l) <==> l == SpawnFails(l.op)
  {
    hide Inv, Next, Overlaps, Enabled;
    var t := After(Next(s, kill), run);
    DeadStart(s, kill);
    StepInv(s, kill);
    StaysDead(s, Next(s, kill), run, kill.id);
    CleanedDead(s, t, clean);
    CleansApart(t, clean);
    StepInv(t, clean);
    StaysDead(Next(t, clean), Next(t, clean), rest, kill.id);
    var u := After(Next(t, clean), rest);
    forall l: Label | !l.MakeLock? && l.op in u.ops && Parent(u.ops[l.op]) == Some(kill.id)
      ensures Enabled(u, l) <==> l == SpawnFails(l.op)
    {
      OnlyFails(u, kill.id, l);
    }
  }

  lemma CleansApart(s: State, l: Label)
    requires l.KillCleans?
    ensures !Overlaps(s, l)
  {
  }

  /******* Sharing, kills, locks *******/

  /** Steps after which the snapshot of `b` need not be the recorded one. */
  predicate Disturbs(s: State, l: Label, b: Id)
    requires Enabled(s, l)
  {
    (l.ExecEnd? || l.CheckWrites? || l.CheckOk? || l.KillPops? || l.KillCleans?) && Touches(s, l) == Some(b)
  }

  predicate Undisturbed(s: State, run: seq<Label>, b: Id)
    requires Takes(s, run)
    decreases |run|
  {
    run == [] || (!Disturbs(s, run[0], b) && Undisturbed(Next(s, run[0]), run[1..], b))
  }

  /** No fork is taking a snapshot of `b`. */
  ghost predicate Unsnapped(s: State, b: Id) {
    forall op | op in s.ops && (s.ops[op].Snapping? || s.ops[op].Snapped?) :: s.ops[op].parent != b
  }

  lemma StillFresh(s: State, l: Label, b: Id)
    requires Inv(s) && Enabled(s, l) && Fresh(s, b) && b in s.vms && Unsnapped(s, b) && !Disturbs(s, l, b)
    ensures var t := Next(s, l); Fresh(t, b) && b in t.vms && (b in t.files <==> b in s.files) && (b in s.files ==> t.files[b] == s.files[b])
  {
    hide Locked, Numbered, Current, OpsOk;
    if Touches(s, l) != Some(b) {
      StepSame(s, l, b);
    } else {
      Counted(s, l.op);
    }
    hide Spawns;
  }

  lemma StillUnsnapped(s: State, l: Label, b: Id)
    requires Enabled(s, l) && Fresh(s, b) && Unsnapped(s, b)
    ensures Unsnapped(Next(s, l), b)
  {
    hide Next;
    var t := Next(s, l);
    forall op | op in t.ops && (t.ops[op].Snapping? || t.ops[op].Snapped?) ensures t.ops[op].parent != b {
      if l.MakeLock? || op != l.op { Unmoved(s, l, op); } else { NewSnaps(s, l); }
    }
  }

  /** A snapshot starts only where none is current. */
  lemma NewSnaps(s: State, l: Label)
    requires Enabled(s, l) && !l.MakeLock? && l.op in Next(s, l).ops && (Next(s, l).ops[l.op].Snapping? || Next(s, l).ops[l.op].Snapped?)
    ensures !Fresh(s, Next(s, l).ops[l.op].parent)
            || (l.op in s.ops && (s.ops[l.op].Snapping? || s.ops[l.op].Snapped?) && s.ops[l.op].parent == Next(s, l).ops[l.op].parent)
  {
    hide EndNext, SpawnNext;
    if EndsSpawn(l) { EndRemoves(s, l); } else if SpawnLabel(l) { ForkSnaps(s, l); }
  }

  lemma ForkSnaps(s: State, l: Label)
    requires Enabled(s, l) && SpawnLabel(l) && !EndsSpawn(l) && l.op in Next(s, l).ops
    requires Next(s, l).ops[l.op].Snapping? || Next(s, l).ops[l.op].Snapped?
    ensures !Fresh(s, Next(s, l).ops[l.op].parent)
            || (l.op in s.ops && (s.ops[l.op].Snapping? || s.ops[l.op].Snapped?) && s.ops[l.op].parent == Next(s, l).ops[l.op].parent)
  {
    hide EndNext, OtherNext;
  }

  /** Once a snapshot is current, forks with no exec, checkpoint or kill between them restore
      from one and the same pair. */
  lemma {:induction false} ForksShare(s: State, run: seq<Label>, b: Id)
    requires Inv(s) && Legal(s, run) && Fresh(s, b) && b in s.vms && Unsnapped(s, b) && Takes(s, run) && Undisturbed(s, run, b)
    ensures var t := After(s, run); Fresh(t, b) && (b in t.files <==> b in s.files) && (b in s.files ==> t.files[b] == s.files[b])
    decreases |run|
  {
    hide Inv, Enabled, Next, Overlaps, Disturbs, Fresh, Unsnapped;
    if run != [] {
      StepInv(s, run[0]);
      StillFresh(s, run[0], b);
      StillUnsnapped(s, run[0], b);
      ForksShare(Next(s, run[0]), run[1..], b);
    }
  }

  /** A kill proceeds only with no spawn of the branch and no fork from it in flight. */
  lemma KillWaits(run: seq<Label>, kill: nat, b: Id, op: nat)
    requires Legal(INITIAL, run)
    ensures Takes(INITIAL, run)
    ensures var s := After(INITIAL, run);
            Enabled(s, KillPops(kill, b)) && op in s.ops ==> Child(s.ops[op]) != Some(b) && Parent(s.ops[op]) != Some(b)
  {
    hide Inv, Next;
    InitialInv();
    RunInv(INITIAL, run);
    var s := After(INITIAL, run);
    if Enabled(s, KillPops(kill, b)) && op in s.ops { NoneInFlight(s, b, op); }
  }

  lemma NoneInFlight(s: State, b: Id, op: nat)
    requires Inv(s) && Forks(s, b) == 0 && b !in s.pending && op in s.ops
    ensures Child(s.ops[op]) != Some(b) && Parent(s.ops[op]) != Some(b)
  {
    hide Locked, Numbered, Current, OpsOk;
    Counted(s, op);
  }

  /** Only one lock object was ever made for `b`. */
  ghost predicate OneLock(s: State, b: Id) {
    forall k | k in s.owner && s.owner[k] == b :: b in s.locks && s.locks[b] == k
  }

  /** Whoever holds a lock holds one made for the branch it works on. */
  function WorksOn(o: Op): Option<Id> {
    if o.Execing? || o.Checking? || o.Checked? then Some(o.branch)
    else if o.Snapping? || o.Snapped? then Some(o.parent)
    else None
  }

  ghost predicate OwnLocks(s: State) {
    forall op | op in s.ops && Holds(s.ops[op]).Some? ::
      Holds(s.ops[op]).value in s.owner && Some(s.owner[Holds(s.ops[op]).value]) == WorksOn(s.ops[op])
  }

  /** No kill dropped the lock entry of `b` during the run. */
  predicate Undropped(s: State, run: seq<Label>, b: Id)
    requires Takes(s, run)
    decreases |run|
  {
    run == [] || (!(run[0].KillCleans? && run[0].drop && s.ops[run[0].op].branch == b) && Undropped(Next(s, run[0]), run[1..], b))
  }

  lemma OwnLocksStep(s: State, l: Label)
    requires Inv(s) && OwnLocks(s) && Enabled(s, l)
    ensures OwnLocks(Next(s, l))
  {
    hide Locked, Spawns, Current, OpsOk;
    var t := Next(s, l);
    forall op | op in t.ops && Holds(t.ops[op]).Some?
      ensures Holds(t.ops[op]).value in t.owner && Some(t.owner[Holds(t.ops[op]).value]) == WorksOn(t.ops[op])
    {
      if l.MakeLock? || op != l.op { Unmoved(s, l, op); }
      NewOwner(s, l);
    }
  }

  lemma NewOwner(s: State, l: Label)
    requires Enabled(s, l)
    ensures l.MakeLock? || Next(s, l).owner == s.owner
  {
  }

  lemma OneLockStep(s: State, l: Label, b: Id)
    requires OneLock(s, b) && Enabled(s, l) && !(l.KillCleans? && l.drop && s.ops[l.op].branch == b)
    ensures OneLock(Next(s, l), b)
  {
  }

  lemma {:induction false} OneLockRun(s: State, run: seq<Label>, b: Id)
    requires Inv(s) && Legal(s, run) && Takes(s, run) && OneLock(s, b) && OwnLocks(s) && Undropped(s, run, b)
    ensures Inv(After(s, run)) && OneLock(After(s, run), b) && OwnLocks(After(s, run))
    decreases |run|
  {
    hide Inv, Enabled, Next, Overlaps, OneLock, OwnLocks;
    if run != [] {
      StepInv(s, run[0]);
      OneLockStep(s, run[0], b);
      OwnLocksStep(s, run[0]);
      OneLockRun(Next(s, run[0]), run[1..], b);
    }
  }

  /** Until a kill has dropped the lock entry of `b`, execs, checkpoints and snapshots of `b`
      exclude each other. */
  lemma Serialized(run: seq<Label>, b: Id, x: nat, y: nat)
    requires Legal(INITIAL, run) && Takes(INITIAL, run) && Undropped(INITIAL, run, b)
    ensures var s := After(INITIAL, run);
            x in s.ops && y in s.ops && WorksOn(s.ops[x]) == Some(b) && WorksOn(s.ops[y]) == Some(b) ==> x == y
  {
    InitialInv();
    OneLockRun(INITIAL, run, b);
    var s := After(INITIAL, run);
    if x in s.ops && y in s.ops && WorksOn(s.ops[x]) == Some(b) && WorksOn(s.ops[y]) == Some(b) { SameHolder(s, b, x, y); }
  }

  lemma SameHolder(s: State, b: Id, x: nat, y: nat)
    requires Inv(s) && OneLock(s, b) && OwnLocks(s) && x in s.ops && y in s.ops
    requires WorksOn(s.ops[x]) == Some(b) && WorksOn(s.ops[y]) == Some(b)
    ensures x == y
  {
    hide Spawns, Numbered, Current, OpsOk;
  }
}
