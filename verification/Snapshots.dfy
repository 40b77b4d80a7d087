/**
The lifecycle bookkeeping of `agentfork/sandbox/firecracker_backend.py` as a state
machine: when is the snapshot of a branch current?

Execs, forks and checkpoints of a branch take the branch's lock; kills do not, and a
kill drops the lock object at the end of its teardown, so that operations of two lives
of a branch may hold two locks at once.  An exec's effect on its guest may land at any
time while the exec runs.
*/
module Snapshots {
  import opened Common

  type Id = string

  /** A running VM: the execs whose effects it holds, own or inherited, and those of them that have ended. */
  datatype Guest = Guest(vm: nat, effects: set<nat>, finished: set<nat>)

  /** The `mem`/`state` pair on disk: of which VM, and what that VM held when it was written. */
  datatype Snapshot = Snapshot(serial: nat, vm: nat, content: set<nat>)

  /** An operation in flight.  `at` is the generation it read, `need` the execs that had
      ended when it did, `lock` the lock object it holds. */
  datatype Op =
    | Execing(branch: Id, vm: nat, exec: nat, lock: nat)
    | Checking(branch: Id, vm: nat, seen: set<nat>, at: nat, lock: nat)
    | Checked(branch: Id, at: nat, lock: nat)
    | Booting(child: Id)
    | Forking(child: Id, parent: Id)
    | Snapping(child: Id, parent: Id, at: nat, need: set<nat>, lock: nat)
    | Snapped(child: Id, parent: Id, at: nat, need: set<nat>, lock: nat)
    | Restoring(child: Id, parent: Id, need: set<nat>)
    | Salvaging(child: Id, parent: Id)
    | Cleaning(branch: Id)

  /** The lock object an operation holds. */
  function Holds(o: Op): Option<nat> {
    if o.Execing? || o.Checking? || o.Checked? || o.Snapping? || o.Snapped? then Some(o.lock) else None
  }

  function Child(o: Op): Option<Id> {
    if o.Execing? || o.Checking? || o.Checked? || o.Cleaning? then None else Some(o.child)
  }

  function Parent(o: Op): Option<Id> {
    if o.Forking? || o.Snapping? || o.Snapped? || o.Restoring? || o.Salvaging? then Some(o.parent) else None
  }

  /** `locks` is the dictionary of lock objects, `owner` the branch each object was ever
      made for, `held` the operation holding it. */
  datatype State = State(
    vms: map<Id, Guest>,
    pending: set<Id>,
    parentForks: map<Id, nat>,
    gen: map<Id, nat>,
    snapGen: map<Id, nat>,
    snapshots: set<Id>,
    files: map<Id, Snapshot>,
    locks: map<Id, nat>,
    owner: map<nat, Id>,
    held: map<nat, nat>,
    ops: map<nat, Op>,
    clock: nat)

  const INITIAL := State(map[], {}, map[], map[], map[], {}, map[], map[], map[], map[], map[], 0)

  /** Steps.  `lock` is the lock object taken: any one ever made for the branch, since a
      thread may have fetched it before the entry was dropped.  A snapshot may be recorded
      although resuming the VM then fails (`SnapStuck`).  `Leftover` is the fork of a parent
      that has no VM but still has files. */
  datatype Label =
    | MakeLock(id: Id)
    | SpawnRoot(op: nat, id: Id)
    | SpawnChild(op: nat, id: Id, parent: Id)
    | BootOk(op: nat)
    | SpawnFails(op: nat)
    | Reuse(op: nat, lock: nat)
    | Pause(op: nat, lock: nat)
    | Leftover(op: nat, lock: nat)
    | SnapWrites(op: nat)
    | SnapOk(op: nat)
    | SnapStuck(op: nat)
    | SnapFails(op: nat)
    | RestoreOk(op: nat)
    | SalvageOk(op: nat)
    | ExecStart(op: nat, id: Id, lock: nat)
    | ExecLands(op: nat)
    | ExecEnd(op: nat)
    | ExecOrphaned(op: nat)
    | CheckStart(op: nat, id: Id, lock: nat)
    | CheckWrites(op: nat)
    | CheckOk(op: nat)
    | CheckFails(op: nat)
    | KillPops(op: nat, id: Id)
    | KillCleans(op: nat, drop: bool)

  function Gen(s: State, b: Id): nat {
    if b in s.gen then s.gen[b] else 0
  }

  /** The negation of `stale`. */
  predicate Fresh(s: State, b: Id) {
    b in s.snapshots && b in s.snapGen && s.snapGen[b] == Gen(s, b)
  }

  function Forks(s: State, p: Id): nat {
    if p in s.parentForks then s.parentForks[p] else 0
  }

  /** One fork of `p` less; the last one drops the entry. */
  function Fewer(forks: map<Id, nat>, p: Id): map<Id, nat> {
    if p in forks && forks[p] > 1 then forks[p := forks[p] - 1] else forks - {p}
  }

  /** A lock object of `b` that nobody holds. */
  predicate Free(s: State, b: Id, lock: nat) {
    lock in s.owner && s.owner[lock] == b && lock !in s.held
  }

  predicate Enabled(s: State, l: Label) {
    match l
    case MakeLock(id) => id !in s.locks
    case SpawnRoot(op, id) => op !in s.ops && id !in s.vms && id !in s.pending
    case SpawnChild(op, id, _) => op !in s.ops && id !in s.vms && id !in s.pending
    case BootOk(op) => op in s.ops && s.ops[op].Booting?
    case SpawnFails(op) => op in s.ops && (s.ops[op].Booting? || s.ops[op].Forking? || s.ops[op].Restoring? || s.ops[op].Salvaging?)
    case Reuse(op, k) => op in s.ops && s.ops[op].Forking? && Free(s, s.ops[op].parent, k) && s.ops[op].parent in s.vms && Fresh(s, s.ops[op].parent)
    case Pause(op, k) => op in s.ops && s.ops[op].Forking? && Free(s, s.ops[op].parent, k) && s.ops[op].parent in s.vms && !Fresh(s, s.ops[op].parent)
    case Leftover(op, k) => op in s.ops && s.ops[op].Forking? && Free(s, s.ops[op].parent, k) && s.ops[op].parent !in s.vms && s.ops[op].parent in s.files
    case SnapWrites(op) => op in s.ops && s.ops[op].Snapping? && s.ops[op].parent in s.vms
    case SnapOk(op) => op in s.ops && s.ops[op].Snapped?
    case SnapStuck(op) => op in s.ops && s.ops[op].Snapped?
    case SnapFails(op) => op in s.ops && (s.ops[op].Snapping? || s.ops[op].Snapped?)
    case RestoreOk(op) => op in s.ops && s.ops[op].Restoring? && s.ops[op].parent in s.files
    case SalvageOk(op) => op in s.ops && s.ops[op].Salvaging? && s.ops[op].parent in s.files
    case ExecStart(op, id, k) => op !in s.ops && id in s.vms && Free(s, id, k)
    case ExecLands(op) => op in s.ops && s.ops[op].Execing? && s.ops[op].branch in s.vms && s.vms[s.ops[op].branch].vm == s.ops[op].vm
    case ExecEnd(op) => op in s.ops && s.ops[op].Execing? && s.ops[op].branch in s.vms
    case ExecOrphaned(op) => op in s.ops && s.ops[op].Execing? && s.ops[op].branch !in s.vms
    case CheckStart(op, id, k) => op !in s.ops && id in s.vms && Free(s, id, k)
    case CheckWrites(op) => op in s.ops && s.ops[op].Checking?
    case CheckOk(op) => op in s.ops && s.ops[op].Checked?
    case CheckFails(op) => op in s.ops && (s.ops[op].Checking? || s.ops[op].Checked?)
    case KillPops(op, id) => op !in s.ops && Forks(s, id) == 0 && id !in s.pending
    case KillCleans(op, _) => op in s.ops && s.ops[op].Cleaning?
  }

  /** The `finally` of `spawn`. */
  function EndSpawn(s: State, op: nat): State
    requires op in s.ops && Child(s.ops[op]).Some?
  {
    s.(pending := s.pending - {Child(s.ops[op]).value}, ops := s.ops - {op},
       parentForks := if Parent(s.ops[op]).Some? then Fewer(s.parentForks, Parent(s.ops[op]).value) else s.parentForks)
  }

  /** Start a VM under `b`. */
  function Up(s: State, b: Id, content: set<nat>): State {
    s.(vms := s.vms[b := Guest(s.clock, content, content)], clock := s.clock + 1)
  }

  /** Write the pair of `b` to disk. */
  function Write(s: State, b: Id, vm: nat, content: set<nat>): State {
    s.(files := s.files[b := Snapshot(s.clock, vm, content)], clock := s.clock + 1)
  }

  function Record(s: State, b: Id, at: nat): State {
    s.(snapshots := s.snapshots + {b}, snapGen := s.snapGen[b := at])
  }

  /** The end of an exec: everything it did counts, if the VM it ran on is still the branch's. */
  function Ended(g: Guest, o: Op): Guest
    requires o.Execing?
  {
    if g.vm == o.vm && o.exec in g.effects then g.(finished := g.finished + {o.exec}) else g
  }

  /** What a checkpoint writes.  A VM that has left the dictionary can still be written until it is dead. */
  function Captured(s: State, o: Op): set<nat>
    requires o.Checking?
  {
    if o.branch in s.vms && s.vms[o.branch].vm == o.vm then s.vms[o.branch].effects else o.seen
  }

  /** Labels of spawns. */
  predicate SpawnLabel(l: Label) {
    || l.SpawnRoot? || l.SpawnChild? || l.BootOk? || l.SpawnFails? || l.Reuse? || l.Pause? || l.Leftover?
    || l.SnapWrites? || l.SnapOk? || l.SnapStuck? || l.SnapFails? || l.RestoreOk? || l.SalvageOk?
  }

  /** Labels that end a spawn. */
  predicate EndsSpawn(l: Label) {
    l.BootOk? || l.SpawnFails? || l.SnapStuck? || l.SnapFails? || l.RestoreOk? || l.SalvageOk?
  }

  /** The ends of a spawn. */
  function EndNext(s: State, l: Label): State
    requires Enabled(s, l) && EndsSpawn(l)
  {
    match l
    case BootOk(op) => Up(EndSpawn(s, op), s.ops[op].child, {})
    case SpawnFails(op) => EndSpawn(s, op)
    case SnapStuck(op) => Record(EndSpawn(s, op), s.ops[op].parent, s.ops[op].at).(held := s.held - {s.ops[op].lock})
    case SnapFails(op) => EndSpawn(s, op).(held := s.held - {s.ops[op].lock})
    case RestoreOk(op) => Up(EndSpawn(s, op), s.ops[op].child, s.files[s.ops[op].parent].content)
    case SalvageOk(op) => Up(EndSpawn(s, op), s.ops[op].child, s.files[s.ops[op].parent].content)
  }

  /** The other steps of a spawn. */
  function SpawnNext(s: State, l: Label): State
    requires Enabled(s, l) && SpawnLabel(l) && !EndsSpawn(l)
  {
    match l
    case SpawnRoot(op, id) => s.(pending := s.pending + {id}, ops := s.ops[op := Booting(id)])
    case SpawnChild(op, id, parent) =>
      s.(pending := s.pending + {id}, parentForks := s.parentForks[parent := Forks(s, parent) + 1], ops := s.ops[op := Forking(id, parent)])
    case Reuse(op, _) =>
      s.(ops := s.ops[op := Restoring(s.ops[op].child, s.ops[op].parent, s.vms[s.ops[op].parent].finished)])
    case Pause(op, k) =>
      var p := s.ops[op].parent;
      s.(ops := s.ops[op := Snapping(s.ops[op].child, p, Gen(s, p), s.vms[p].finished, k)], held := s.held[k := op])
    case Leftover(op, _) => s.(ops := s.ops[op := Salvaging(s.ops[op].child, s.ops[op].parent)])
    case SnapWrites(op) =>
      var o := s.ops[op];
      Write(s, o.parent, s.vms[o.parent].vm, s.vms[o.parent].effects)
        .(ops := s.ops[op := Snapped(o.child, o.parent, o.at, o.need, o.lock)])
    case SnapOk(op) =>
      var o := s.ops[op];
      Record(s, o.parent, o.at).(ops := s.ops[op := Restoring(o.child, o.parent, o.need)], held := s.held - {o.lock})
  }

  /** The steps of execs, checkpoints and kills. */
  function OtherNext(s: State, l: Label): State
    requires Enabled(s, l) && !SpawnLabel(l)
  {
    match l
    case MakeLock(id) => s.(locks := s.locks[id := s.clock], owner := s.owner[s.clock := id], clock := s.clock + 1)
    case ExecStart(op, id, k) =>
      s.(ops := s.ops[op := Execing(id, s.vms[id].vm, s.clock, k)], held := s.held[k := op], clock := s.clock + 1)
    case ExecLands(op) =>
      var b := s.ops[op].branch;
      s.(vms := s.vms[b := s.vms[b].(effects := s.vms[b].effects + {s.ops[op].exec})])
    case ExecEnd(op) =>
      var b := s.ops[op].branch;
      s.(ops := s.ops - {op}, held := s.held - {s.ops[op].lock}, gen := s.gen[b := Gen(s, b) + 1], vms := s.vms[b := Ended(s.vms[b], s.ops[op])])
    case ExecOrphaned(op) => s.(ops := s.ops - {op}, held := s.held - {s.ops[op].lock})
    case CheckStart(op, id, k) =>
      s.(ops := s.ops[op := Checking(id, s.vms[id].vm, s.vms[id].effects, Gen(s, id), k)], held := s.held[k := op])
    case CheckWrites(op) =>
      var o := s.ops[op];
      Write(s, o.branch, o.vm, Captured(s, o)).(ops := s.ops[op := Checked(o.branch, o.at, o.lock)])
    case CheckOk(op) => Record(s, s.ops[op].branch, s.ops[op].at).(ops := s.ops - {op}, held := s.held - {s.ops[op].lock})
    case CheckFails(op) => s.(ops := s.ops - {op}, held := s.held - {s.ops[op].lock})
    case KillPops(op, id) =>
      s.(vms := s.vms - {id}, snapshots := s.snapshots - {id}, gen := s.gen - {id}, snapGen := s.snapGen - {id},
         ops := s.ops[op := Cleaning(id)])
    case KillCleans(op, drop) =>
      s.(files := s.files - {s.ops[op].branch}, ops := s.ops - {op},
         locks := if drop then s.locks - {s.ops[op].branch} else s.locks)
  }

  function Next(s: State, l: Label): State
    requires Enabled(s, l)
  {
    if EndsSpawn(l) then EndNext(s, l) else if SpawnLabel(l) then SpawnNext(s, l) else OtherNext(s, l)
  }

  /** A checkpoint of `b` in flight that would outlive the branch to harm: it has not written
      yet, or what it wrote is still there, or it claims a generation that `b` can reach again. */
  predicate Untimely(s: State, o: Op, b: Id) {
    || (o.Checking? && o.branch == b)
    || (o.Checked? && o.branch == b && (b in s.files || o.at > 0))
  }

  /** A kill of a branch whose checkpoint is in flight. */
  ghost predicate Overlaps(s: State, l: Label) {
    l.KillPops? && exists op :: op in s.ops && Untimely(s, s.ops[op], l.id)
  }

  /******* Invariant *******/

  /** A lock object has exactly one holder. */
  ghost predicate Locked(s: State) {
    && (forall op | op in s.ops && Holds(s.ops[op]).Some? :: Holds(s.ops[op]).value in s.held && s.held[Holds(s.ops[op]).value] == op)
    && (forall k | k in s.held :: s.held[k] in s.ops && Holds(s.ops[s.held[k]]) == Some(k))
  }

  /** `_pending` and `_parent_forks` count the spawns in flight. */
  ghost predicate Spawns(s: State) {
    && (forall op | op in s.ops && Child(s.ops[op]).Some? :: Child(s.ops[op]).value in s.pending)
    && (forall a, b {:trigger s.ops[a], s.ops[b]} | a in s.ops && b in s.ops && Child(s.ops[a]).Some? && Child(s.ops[a]) == Child(s.ops[b]) :: a == b)
    && (forall p :: Forks(s, p) == |ForksOf(s.ops, p)|)
    && s.pending !! s.vms.Keys
  }

  ghost function ForksOf(ops: map<nat, Op>, p: Id): set<nat> {
    set op | op in ops && Parent(ops[op]) == Some(p)
  }

  /** VMs and lock objects are numbered in the order they are made. */
  ghost predicate Numbered(s: State) {
    && (forall k | k in s.owner :: k < s.clock) && (forall k | k in s.held :: k < s.clock)
    && (forall b | b in s.vms :: s.vms[b].vm < s.clock)
    && (forall b | b in s.files :: s.files[b].vm < s.clock)
    && (forall op | op in s.ops && s.ops[op].Checking? :: s.ops[op].vm < s.clock)
  }

  /** The pair on disk, if there is one, was written by the branch's own VM and holds `need`. */
  ghost predicate OnDisk(s: State, b: Id, need: set<nat>) {
    b in s.files ==> b in s.vms && s.files[b].vm == s.vms[b].vm && need <= s.files[b].content
  }

  /** Whoever claims generation `at` for the pair of `b`: the claim is never about the
      future, and if it is about the present the pair holds every ended exec. */
  ghost predicate Claim(s: State, b: Id, at: nat) {
    at <= Gen(s, b) && (at == Gen(s, b) ==> OnDisk(s, b, if b in s.vms then s.vms[b].finished else {}))
  }

  /** The recorded generation is such a claim. */
  ghost predicate CurrentAt(s: State, b: Id) {
    && (b in s.gen ==> b in s.vms) && (b in s.snapGen <==> b in s.snapshots)
    && (b in s.vms ==> s.vms[b].finished <= s.vms[b].effects)
    && (b in s.snapshots ==> Claim(s, b, s.snapGen[b]))
  }

  ghost predicate Current(s: State) {
    forall b :: CurrentAt(s, b)
  }

  /** What operations in flight rely on. */
  ghost predicate OpOk(s: State, o: Op) {
    match o
    case Checking(b, vm, seen, at, _) => b in s.vms && s.vms[b].vm == vm && at <= Gen(s, b)
    case Checked(b, at, _) => Claim(s, b, at)
    case Snapping(_, p, at, need, _) => p in s.vms && at <= Gen(s, p) && need <= s.vms[p].effects
    case Snapped(_, p, at, need, _) => p in s.vms && need <= s.vms[p].effects && Claim(s, p, at) && OnDisk(s, p, need)
    case Restoring(_, p, need) => p in s.vms && need <= s.vms[p].effects && OnDisk(s, p, need)
    case _ => true
  }

  ghost predicate OpsOk(s: State) {
    forall op | op in s.ops :: OpOk(s, s.ops[op])
  }

  ghost predicate Inv(s: State) {
    Locked(s) && Spawns(s) && Numbered(s) && Current(s) && OpsOk(s)
  }

  /******* Preservation *******/

  lemma InitialInv()
    ensures Inv(INITIAL)
  {
    assert forall p :: ForksOf(map[], p) == {};
  }

  /** Only `op` moved. */
  ghost predicate Moved(s: State, t: State, op: nat) {
    forall a | a != op :: (a in t.ops <==> a in s.ops) && (a in s.ops ==> t.ops[a] == s.ops[a])
  }

  lemma EndMoves(s: State, l: Label)
    requires Enabled(s, l) && EndsSpawn(l)
    ensures Moved(s, Next(s, l), l.op)
  {
    hide OtherNext, SpawnNext;
  }

  lemma SpawnMoves(s: State, l: Label)
    requires Enabled(s, l) && SpawnLabel(l)
    ensures Moved(s, Next(s, l), l.op)
  {
    hide OtherNext, EndNext;
    if EndsSpawn(l) { EndMoves(s, l); }
  }

  lemma OtherMoves(s: State, l: Label)
    requires Enabled(s, l) && !SpawnLabel(l) && !l.MakeLock?
    ensures Moved(s, Next(s, l), l.op)
  {
    hide SpawnNext, EndNext;
  }

  lemma MovesOne(s: State, l: Label)
    requires Enabled(s, l) && !l.MakeLock?
    ensures Moved(s, Next(s, l), l.op)
  {
    if SpawnLabel(l) { SpawnMoves(s, l); } else { OtherMoves(s, l); }
  }

  function HeldBy(s: State, op: nat): Option<nat> {
    if op in s.ops then Holds(s.ops[op]) else None
  }

  /** Only `op` moved, and the lock table with it. */
  lemma LockedFrame(s: State, t: State, op: nat)
    requires Locked(s) && Moved(s, t, op)
    requires HeldBy(s, op) == HeldBy(t, op) || HeldBy(s, op).None? || HeldBy(t, op).None?
    requires t.held == if HeldBy(s, op) == HeldBy(t, op) then s.held
                       else if HeldBy(t, op).Some? then s.held[HeldBy(t, op).value := op]
                       else s.held - {HeldBy(s, op).value}
    requires HeldBy(s, op).None? && HeldBy(t, op).Some? ==> HeldBy(t, op).value !in s.held
    ensures Locked(t)
  {
    forall a | a in t.ops && Holds(t.ops[a]).Some? ensures Holds(t.ops[a]).value in t.held && t.held[Holds(t.ops[a]).value] == a {
      if a != op { assert s.ops[a] == t.ops[a]; }
    }
    forall k | k in t.held ensures t.held[k] in t.ops && Holds(t.ops[t.held[k]]) == Some(k) {
      if t.held[k] != op { assert k in s.held && s.held[k] == t.held[k]; }
    }
  }

  lemma EndLocked(s: State, l: Label)
    requires Inv(s) && Enabled(s, l) && EndsSpawn(l)
    ensures Locked(Next(s, l))
  {
    hide OtherNext, SpawnNext;
    hide Spawns, Current, OpsOk, Locked, Numbered, Moved;
    SpawnMoves(s, l);
    LockedFrame(s, Next(s, l), l.op);
  }

  lemma ForkLocked(s: State, l: Label)
    requires Locked(s) && Enabled(s, l) && SpawnLabel(l) && !EndsSpawn(l) && Moved(s, Next(s, l), l.op)
    ensures Locked(Next(s, l))
  {
    hide OtherNext, EndNext, Locked, Moved;
    LockedFrame(s, Next(s, l), l.op);
  }

  lemma SpawnLocked(s: State, l: Label)
    requires Inv(s) && Enabled(s, l) && SpawnLabel(l)
    ensures Locked(Next(s, l))
  {
    hide Spawns, Current, OpsOk, Locked, Numbered, Next, Enabled;
    SpawnMoves(s, l);
    if EndsSpawn(l) { EndLocked(s, l); } else { ForkLocked(s, l); }
  }

  lemma LockedStep(s: State, l: Label)
    requires Inv(s) && Enabled(s, l)
    ensures Locked(Next(s, l))
  {
    hide Spawns, Current, OpsOk, Locked, Numbered, Moved, SpawnNext, EndNext;
    if SpawnLabel(l) {
      SpawnLocked(s, l);
    } else if l.MakeLock? {
      LockedSame(s, Next(s, l));
    } else {
      OtherMoves(s, l);
      LockedFrame(s, Next(s, l), l.op);
    }
  }

  lemma LockedSame(s: State, t: State)
    requires Locked(s) && t.held == s.held && t.ops == s.ops
    ensures Locked(t)
  {
  }

  /** Removing an operation from those that count for `p`. */
  lemma ForksWithout(ops: map<nat, Op>, op: nat, p: Id)
    requires op in ops
    ensures |ForksOf(ops - {op}, p)| == |ForksOf(ops, p)| - (if Parent(ops[op]) == Some(p) then 1 else 0)
  {
    if Parent(ops[op]) == Some(p) {
      assert ForksOf(ops, p) == ForksOf(ops - {op}, p) + {op};
    } else {
      assert ForksOf(ops, p) == ForksOf(ops - {op}, p);
    }
  }

  /** How many forks of `p` the operation `op` counts for. */
  function Share(ops: map<nat, Op>, op: nat, p: Id): nat {
    if op in ops && Parent(ops[op]) == Some(p) then 1 else 0
  }

  lemma ForksMoved(s: State, t: State, op: nat, p: Id)
    requires Moved(s, t, op)
    ensures |ForksOf(t.ops, p)| == |ForksOf(s.ops, p)| - Share(s.ops, op, p) + Share(t.ops, op, p)
  {
    assert ForksOf(t.ops - {op}, p) == ForksOf(s.ops - {op}, p);
    if op in s.ops { ForksWithout(s.ops, op, p); } else { assert s.ops - {op} == s.ops; }
    if op in t.ops { ForksWithout(t.ops, op, p); } else { assert t.ops - {op} == t.ops; }
  }

  function ChildOf(s: State, op: nat): Option<Id> {
    if op in s.ops then Child(s.ops[op]) else None
  }

  /** The pending set moves with `op`. */
  ghost predicate PendingMoves(s: State, t: State, op: nat) {
    && (ChildOf(s, op) == ChildOf(t, op) || ChildOf(s, op).None? || ChildOf(t, op).None?)
    && t.pending == (if ChildOf(s, op) == ChildOf(t, op) then s.pending
                     else if ChildOf(t, op).Some? then s.pending + {ChildOf(t, op).value}
                     else s.pending - {ChildOf(s, op).value})
    && (ChildOf(s, op).None? && ChildOf(t, op).Some? ==> ChildOf(t, op).value !in s.pending)
  }

  /** Only `op` moved, and the spawn counters with it. */
  lemma SpawnsFrame(s: State, t: State, op: nat)
    requires Spawns(s) && Moved(s, t, op) && PendingMoves(s, t, op)
    requires forall p :: Forks(t, p) == Forks(s, p) - Share(s.ops, op, p) + Share(t.ops, op, p)
    requires t.pending !! t.vms.Keys
    ensures Spawns(t)
  {
    hide Moved;
    forall p ensures Forks(t, p) == |ForksOf(t.ops, p)| { ForksMoved(s, t, op, p); assert Forks(s, p) == |ForksOf(s.ops, p)|; }
    SpawnsChildren(s, t, op);
  }

  lemma SpawnsChildren(s: State, t: State, op: nat)
    requires Spawns(s) && Moved(s, t, op) && PendingMoves(s, t, op)
    ensures forall a | a in t.ops && Child(t.ops[a]).Some? :: Child(t.ops[a]).value in t.pending
    ensures forall a, b {:trigger t.ops[a], t.ops[b]} | a in t.ops && b in t.ops && Child(t.ops[a]).Some? && Child(t.ops[a]) == Child(t.ops[b]) :: a == b
  {
    hide ForksOf;
    forall a | a in t.ops && Child(t.ops[a]).Some? ensures Child(t.ops[a]).value in t.pending {
      if a != op {
        assert s.ops[a] == t.ops[a];
        if ChildOf(s, op).Some? { assert Child(s.ops[a]) != Child(s.ops[op]); }
      }
    }
  }

  lemma SpawnsSame(s: State, t: State)
    requires Spawns(s) && t.ops == s.ops && t.pending == s.pending && t.parentForks == s.parentForks && t.vms.Keys <= s.vms.Keys
    ensures Spawns(t)
  {
    forall p ensures Forks(t, p) == |ForksOf(t.ops, p)| { assert Forks(s, p) == |ForksOf(s.ops, p)|; }
  }

  /** A spawn in flight counts. */
  lemma Counted(s: State, op: nat)
    requires Spawns(s) && op in s.ops
    ensures Parent(s.ops[op]).Some? ==> Forks(s, Parent(s.ops[op]).value) >= 1
    ensures Child(s.ops[op]).Some? ==> Child(s.ops[op]).value in s.pending && Child(s.ops[op]).value !in s.vms
  {
    if Parent(s.ops[op]).Some? { assert op in ForksOf(s.ops, Parent(s.ops[op]).value); }
  }

  lemma EndedCount(s: State, l: Label)
    requires Inv(s) && Enabled(s, l) && EndsSpawn(l)
    ensures var t := Next(s, l); forall p :: Forks(t, p) == Forks(s, p) - Share(s.ops, l.op, p) + Share(t.ops, l.op, p)
  {
    hide OtherNext, SpawnNext;
    hide Locked, Current, OpsOk, ForksOf, Numbered;
    Counted(s, l.op);
    hide Spawns;
  }

  lemma SpawnCount(s: State, l: Label)
    requires Enabled(s, l) && SpawnLabel(l) && !EndsSpawn(l)
    ensures var t := Next(s, l); forall p :: Forks(t, p) == Forks(s, p) - Share(s.ops, l.op, p) + Share(t.ops, l.op, p)
  {
    hide OtherNext, EndNext;
  }

  lemma OtherCount(s: State, l: Label)
    requires Enabled(s, l) && !SpawnLabel(l) && !l.MakeLock?
    ensures var t := Next(s, l); forall p :: Forks(t, p) == Forks(s, p) - Share(s.ops, l.op, p) + Share(t.ops, l.op, p)
  {
    hide SpawnNext, EndNext;
  }

  lemma EndedPending(s: State, l: Label)
    requires Inv(s) && Enabled(s, l) && EndsSpawn(l)
    ensures PendingMoves(s, Next(s, l), l.op) && Next(s, l).pending !! Next(s, l).vms.Keys
  {
    hide OtherNext, SpawnNext;
    hide Locked, Current, OpsOk, ForksOf, Numbered, Fewer, Forks;
    Counted(s, l.op);
    assert s.pending !! s.vms.Keys;
    hide Spawns;
  }

  lemma ForkPending(s: State, l: Label)
    requires s.pending !! s.vms.Keys && Enabled(s, l) && SpawnLabel(l) && !EndsSpawn(l)
    ensures PendingMoves(s, Next(s, l), l.op) && Next(s, l).pending !! Next(s, l).vms.Keys
  {
    hide OtherNext, EndNext, Fewer, Forks;
  }

  lemma SpawnPending(s: State, l: Label)
    requires Inv(s) && Enabled(s, l) && SpawnLabel(l)
    ensures PendingMoves(s, Next(s, l), l.op) && Next(s, l).pending !! Next(s, l).vms.Keys
  {
    hide Locked, Current, OpsOk, ForksOf, Numbered, Next, Enabled, PendingMoves;
    if EndsSpawn(l) { EndedPending(s, l); } else { ForkPending(s, l); }
  }

  lemma OtherPending(s: State, l: Label)
    requires Inv(s) && Enabled(s, l) && !SpawnLabel(l) && !l.MakeLock?
    ensures PendingMoves(s, Next(s, l), l.op) && Next(s, l).pending !! Next(s, l).vms.Keys
  {
    hide SpawnNext, EndNext;
    hide Locked, Current, OpsOk, ForksOf, Numbered;
    assert s.pending !! s.vms.Keys;
    hide Spawns;
  }

  lemma SpawnsStep(s: State, l: Label)
    requires Inv(s) && Enabled(s, l)
    ensures Spawns(Next(s, l))
  {
    hide Locked, Current, OpsOk, ForksOf, Numbered, Spawns, PendingMoves, Moved, Share, Forks;
    if l.MakeLock? {
      SpawnsSame(s, Next(s, l));
    } else {
      MovesOne(s, l);
      if EndsSpawn(l) { EndedCount(s, l); } else if SpawnLabel(l) { SpawnCount(s, l); } else { OtherCount(s, l); }
      if SpawnLabel(l) { SpawnPending(s, l); } else { OtherPending(s, l); }
      hide Next, Enabled;
      SpawnsFrame(s, Next(s, l), l.op);
    }
  }

  lemma EndNumbered(s: State, l: Label)
    requires Numbered(s) && Enabled(s, l) && EndsSpawn(l)
    ensures Numbered(Next(s, l))
  {
    hide OtherNext, SpawnNext, Fewer;
  }

  lemma SpawnNumbered(s: State, l: Label)
    requires Numbered(s) && Enabled(s, l) && SpawnLabel(l)
    ensures Numbered(Next(s, l))
  {
    hide OtherNext, EndNext, Fewer;
    if EndsSpawn(l) { EndNumbered(s, l); }
  }

  lemma OtherNumberedVms(s: State, l: Label, b: Id)
    requires Numbered(s) && Enabled(s, l) && !SpawnLabel(l)
    ensures var t := Next(s, l); s.clock <= t.clock && (b in t.vms ==> t.vms[b].vm < t.clock) && (b in t.files ==> t.files[b].vm < t.clock)
  {
    hide SpawnNext, EndNext;
  }

  lemma OtherNumberedLocks(s: State, l: Label, k: nat)
    requires Numbered(s) && Enabled(s, l) && !SpawnLabel(l)
    ensures var t := Next(s, l);
            && (k in t.owner ==> k < t.clock) && (k in t.held ==> k < t.clock)
            && (k in t.ops && t.ops[k].Checking? ==> t.ops[k].vm < t.clock)
  {
    hide SpawnNext, EndNext;
  }

  lemma NumberedStep(s: State, l: Label)
    requires Numbered(s) && Enabled(s, l)
    ensures Numbered(Next(s, l))
  {
    hide Next, Enabled;
    if SpawnLabel(l) {
      SpawnNumbered(s, l);
    } else {
      var t := Next(s, l);
      forall b | b in t.vms ensures t.vms[b].vm < t.clock { OtherNumberedVms(s, l, b); }
      forall b | b in t.files ensures t.files[b].vm < t.clock { OtherNumberedVms(s, l, b); }
      forall k | k in t.owner ensures k < t.clock { OtherNumberedLocks(s, l, k); }
      forall k | k in t.held ensures k < t.clock { OtherNumberedLocks(s, l, k); }
      forall op | op in t.ops && t.ops[op].Checking? ensures t.ops[op].vm < t.clock { OtherNumberedLocks(s, l, op); }
    }
  }

  /******* Freshness *******/

  /** The step changed nothing about `b`. */
  ghost predicate Same(s: State, t: State, b: Id) {
    && (b in t.vms <==> b in s.vms) && (b in s.vms ==> t.vms[b] == s.vms[b])
    && (b in t.gen <==> b in s.gen) && (b in s.gen ==> t.gen[b] == s.gen[b])
    && (b in t.snapGen <==> b in s.snapGen) && (b in s.snapGen ==> t.snapGen[b] == s.snapGen[b])
    && (b in t.snapshots <==> b in s.snapshots)
    && (b in t.files <==> b in s.files) && (b in s.files ==> t.files[b] == s.files[b])
  }

  /** The branch whose bookkeeping a step may change. */
  function Touches(s: State, l: Label): Option<Id>
    requires Enabled(s, l)
  {
    match l
    case BootOk(op) => Some(s.ops[op].child)
    case RestoreOk(op) => Some(s.ops[op].child)
    case SalvageOk(op) => Some(s.ops[op].child)
    case SnapWrites(op) => Some(s.ops[op].parent)
    case SnapOk(op) => Some(s.ops[op].parent)
    case SnapStuck(op) => Some(s.ops[op].parent)
    case ExecLands(op) => Some(s.ops[op].branch)
    case ExecEnd(op) => Some(s.ops[op].branch)
    case CheckWrites(op) => Some(s.ops[op].branch)
    case CheckOk(op) => Some(s.ops[op].branch)
    case KillPops(_, id) => Some(id)
    case KillCleans(op, _) => Some(s.ops[op].branch)
    case _ => None
  }

  lemma StepSame(s: State, l: Label, b: Id)
    requires Enabled(s, l) && Touches(s, l) != Some(b)
    ensures Same(s, Next(s, l), b)
  {
    hide SpawnNext, EndNext;
    if SpawnLabel(l) { SpawnSame(s, l, b); }
  }

  lemma EndSame(s: State, l: Label, b: Id)
    requires Enabled(s, l) && EndsSpawn(l) && Touches(s, l) != Some(b)
    ensures Same(s, Next(s, l), b)
  {
    hide OtherNext, SpawnNext, Fewer;
  }

  lemma SpawnSame(s: State, l: Label, b: Id)
    requires Enabled(s, l) && SpawnLabel(l) && Touches(s, l) != Some(b)
    ensures Same(s, Next(s, l), b)
  {
    hide OtherNext, EndNext, Fewer;
    if EndsSpawn(l) { EndSame(s, l, b); }
  }

  lemma EndCurrent(s: State, l: Label, b: Id)
    requires Inv(s) && Enabled(s, l) && EndsSpawn(l) && Touches(s, l) == Some(b)
    ensures CurrentAt(Next(s, l), b)
  {
    hide OtherNext, SpawnNext;
    hide Locked, Spawns, Numbered;
    assert CurrentAt(s, b);
    Counted(s, l.op);
    assert OpOk(s, s.ops[l.op]);
  }

  lemma WriteCurrent(s: State, l: Label)
    requires Inv(s) && Enabled(s, l) && l.SnapWrites?
    ensures CurrentAt(Next(s, l), s.ops[l.op].parent)
  {
    hide OtherNext, EndNext, Locked, Spawns, Numbered, OpsOk;
    assert CurrentAt(s, s.ops[l.op].parent);
  }

  lemma RecordCurrent(s: State, l: Label)
    requires Inv(s) && Enabled(s, l) && l.SnapOk?
    ensures CurrentAt(Next(s, l), s.ops[l.op].parent)
  {
    hide OtherNext, EndNext, Locked, Spawns, Numbered;
    assert CurrentAt(s, s.ops[l.op].parent) && OpOk(s, s.ops[l.op]);
  }

  lemma SpawnCurrent(s: State, l: Label, b: Id)
    requires Inv(s) && Enabled(s, l) && SpawnLabel(l) && Touches(s, l) == Some(b)
    ensures CurrentAt(Next(s, l), b)
  {
    hide Next, Inv, CurrentAt;
    if EndsSpawn(l) { EndCurrent(s, l, b); } else if l.SnapWrites? { WriteCurrent(s, l); } else { RecordCurrent(s, l); }
  }

  lemma OtherCurrent(s: State, l: Label, b: Id)
    requires Inv(s) && Enabled(s, l) && !SpawnLabel(l) && Touches(s, l) == Some(b)
    ensures CurrentAt(Next(s, l), b)
  {
    hide SpawnNext, EndNext;
    hide Locked, Spawns, Numbered;
    assert CurrentAt(s, b);
    if l.op in s.ops { assert OpOk(s, s.ops[l.op]); }
  }

  lemma CurrentStep(s: State, l: Label)
    requires Inv(s) && Enabled(s, l)
    ensures Current(Next(s, l))
  {
    hide Locked, Spawns, OpsOk, Next, Touches, Numbered;
    forall b ensures CurrentAt(Next(s, l), b) {
      assert CurrentAt(s, b);
      if Touches(s, l) == Some(b) {
        if SpawnLabel(l) { SpawnCurrent(s, l, b); } else { OtherCurrent(s, l, b); }
      } else {
        StepSame(s, l, b);
      }
    }
  }

  /** Without forks in flight nobody depends on the branch as a parent. */
  lemma NoDependents(s: State, b: Id)
    requires Spawns(s) && Forks(s, b) == 0
    ensures forall op | op in s.ops :: Parent(s.ops[op]) != Some(b)
  {
    forall op | op in s.ops ensures Parent(s.ops[op]) != Some(b) { Counted(s, op); }
  }

  /** The branch an operation relies on. */
  function Subject(o: Op): Option<Id> {
    match o
    case Checking(b, _, _, _, _) => Some(b)
    case Checked(b, _, _) => Some(b)
    case Snapping(_, p, _, _, _) => Some(p)
    case Snapped(_, p, _, _, _) => Some(p)
    case Restoring(_, p, _) => Some(p)
    case _ => None
  }

  /** Another operation on the touched branch keeps what it relies on. */
  lemma EndOthers(s: State, l: Label, a: nat)
    requires Inv(s) && Enabled(s, l) && EndsSpawn(l) && a in s.ops && a != l.op
    requires Subject(s.ops[a]).Some? && Touches(s, l) == Subject(s.ops[a])
    ensures OpOk(Next(s, l), s.ops[a])
  {
    hide OtherNext, SpawnNext;
    hide Locked, Numbered;
    var b := Subject(s.ops[a]).value;
    assert OpOk(s, s.ops[a]) && CurrentAt(s, b);
    Counted(s, l.op);
    hide Spawns;
    assert OpOk(s, s.ops[l.op]);
  }

  lemma WriteOthers(s: State, l: Label, a: nat)
    requires Inv(s) && Enabled(s, l) && l.SnapWrites? && a in s.ops && a != l.op && Subject(s.ops[a]) == Some(s.ops[l.op].parent)
    ensures OpOk(Next(s, l), s.ops[a])
  {
    hide OtherNext, EndNext, Locked, Numbered, Spawns;
    assert OpOk(s, s.ops[a]) && CurrentAt(s, s.ops[l.op].parent);
  }

  lemma RecordOthers(s: State, l: Label, a: nat)
    requires Inv(s) && Enabled(s, l) && l.SnapOk? && a in s.ops && a != l.op && Subject(s.ops[a]) == Some(s.ops[l.op].parent)
    ensures OpOk(Next(s, l), s.ops[a])
  {
    hide OtherNext, EndNext, Locked, Numbered, Spawns, Current;
    assert OpOk(s, s.ops[a]);
  }

  lemma SpawnOthers(s: State, l: Label, a: nat)
    requires Inv(s) && Enabled(s, l) && SpawnLabel(l) && a in s.ops && a != l.op
    requires Subject(s.ops[a]).Some? && Touches(s, l) == Subject(s.ops[a])
    ensures OpOk(Next(s, l), s.ops[a])
  {
    hide OtherNext, EndNext, SpawnNext, Inv, OpOk;
    if EndsSpawn(l) { EndOthers(s, l, a); } else if l.SnapWrites? { WriteOthers(s, l, a); } else { RecordOthers(s, l, a); }
  }

  lemma KillOthers(s: State, l: Label, a: nat)
    requires Inv(s) && Enabled(s, l) && l.KillPops? && !Overlaps(s, l) && a in s.ops && a != l.op
    requires Subject(s.ops[a]) == Some(l.id)
    ensures OpOk(Next(s, l), s.ops[a])
  {
    hide SpawnNext, EndNext;
    hide Locked, Numbered, Current;
    assert OpOk(s, s.ops[a]);
    NoDependents(s, l.id);
    assert !Untimely(s, s.ops[a], l.id);
  }

  lemma ExecOthers(s: State, l: Label, a: nat)
    requires Inv(s) && Enabled(s, l) && (l.ExecLands? || l.ExecEnd?) && a in s.ops && a != l.op && Subject(s.ops[a]) == Some(s.ops[l.op].branch)
    ensures OpOk(Next(s, l), s.ops[a])
  {
    hide SpawnNext, EndNext, Locked, Numbered, Spawns;
    assert OpOk(s, s.ops[a]) && CurrentAt(s, s.ops[l.op].branch);
  }

  lemma CheckOthers(s: State, l: Label, a: nat)
    requires Inv(s) && l.CheckWrites? && Enabled(s, l) && a in s.ops && a != l.op && Subject(s.ops[a]) == Some(s.ops[l.op].branch)
    ensures OpOk(Next(s, l), s.ops[a])
  {
    hide SpawnNext, EndNext, Locked, Numbered, Spawns;
    assert OpOk(s, s.ops[a]) && CurrentAt(s, s.ops[l.op].branch) && OpOk(s, s.ops[l.op]);
  }

  lemma NoteOthers(s: State, l: Label, a: nat)
    requires Inv(s) && (l.CheckOk? || l.KillCleans?) && Enabled(s, l) && a in s.ops && a != l.op
    requires Subject(s.ops[a]) == Some(s.ops[l.op].branch)
    ensures OpOk(Next(s, l), s.ops[a])
  {
    hide SpawnNext, EndNext, Locked, Numbered, Spawns, Current;
    assert OpOk(s, s.ops[a]);
  }

  lemma OtherOthers(s: State, l: Label, a: nat)
    requires Inv(s) && Enabled(s, l) && !Overlaps(s, l) && !SpawnLabel(l) && !l.MakeLock? && a in s.ops && a != l.op
    requires Subject(s.ops[a]).Some? && Touches(s, l) == Subject(s.ops[a])
    ensures OpOk(Next(s, l), s.ops[a])
  {
    hide Next, Inv, OpOk, Overlaps;
    if l.KillPops? { KillOthers(s, l, a); } else if l.ExecLands? || l.ExecEnd? { ExecOthers(s, l, a); } else if l.CheckWrites? { CheckOthers(s, l, a); } else { NoteOthers(s, l, a); }
  }

  lemma SpawnOwnOk(s: State, l: Label)
    requires Inv(s) && Enabled(s, l) && SpawnLabel(l) && !EndsSpawn(l) && l.op in Next(s, l).ops
    ensures OpOk(Next(s, l), Next(s, l).ops[l.op])
  {
    hide OtherNext, EndNext;
    hide Locked, Spawns, Numbered;
    if l.op in s.ops {
      assert OpOk(s, s.ops[l.op]);
      if Parent(s.ops[l.op]).Some? { assert CurrentAt(s, s.ops[l.op].parent); }
    }
  }

  lemma EndRemoves(s: State, l: Label)
    requires Enabled(s, l) && EndsSpawn(l)
    ensures l.op !in Next(s, l).ops
  {
    hide OtherNext, SpawnNext;
  }

  lemma OtherOwnOk(s: State, l: Label)
    requires Inv(s) && Enabled(s, l) && !SpawnLabel(l) && !l.MakeLock? && l.op in Next(s, l).ops
    ensures OpOk(Next(s, l), Next(s, l).ops[l.op])
  {
    hide SpawnNext, EndNext;
    hide Locked, Spawns, Numbered;
    if l.op in s.ops {
      assert OpOk(s, s.ops[l.op]);
      if l.CheckWrites? { assert CurrentAt(s, s.ops[l.op].branch); }
    }
  }

  lemma OpsStep(s: State, l: Label)
    requires Inv(s) && Enabled(s, l) && !Overlaps(s, l)
    ensures OpsOk(Next(s, l))
  {
    hide Locked, Spawns, Current, Next, Touches, Overlaps, Numbered, Enabled, SpawnLabel;
    var t := Next(s, l);
    forall a | a in t.ops ensures OpOk(t, t.ops[a]) {
      if !l.MakeLock? && a == l.op {
        if EndsSpawn(l) { EndRemoves(s, l); } else if SpawnLabel(l) { SpawnOwnOk(s, l); } else { OtherOwnOk(s, l); }
      } else {
        Unmoved(s, l, a);
        assert OpOk(s, s.ops[a]);
        if Subject(s.ops[a]).Some? {
          if Touches(s, l) != Subject(s.ops[a]) {
            StepSame(s, l, Subject(s.ops[a]).value);
          } else {
            TouchesNotLock(s, l);
            if SpawnLabel(l) { SpawnOthers(s, l, a); } else { OtherOthers(s, l, a); }
          }
        }
      }
    }
  }

  lemma TouchesNotLock(s: State, l: Label)
    requires Enabled(s, l) && Touches(s, l).Some?
    ensures !l.MakeLock?
  {
  }

  lemma Unmoved(s: State, l: Label, a: nat)
    requires Enabled(s, l) && (l.MakeLock? || a != l.op)
    ensures a in Next(s, l).ops <==> a in s.ops
    ensures a in s.ops ==> Next(s, l).ops[a] == s.ops[a]
  {
    if !l.MakeLock? { MovesOne(s, l); hide Next; }
  }

  /** Every step keeps the invariant, unless it kills a branch under its checkpoint. */
  lemma StepInv(s: State, l: Label)
    requires Inv(s) && Enabled(s, l) && !Overlaps(s, l)
    ensures Inv(Next(s, l))
  {
    hide Locked, Spawns, Current, OpsOk, Next, Overlaps, Enabled, Numbered;
    LockedStep(s, l);
    SpawnsStep(s, l);
    NumberedStep(s, l);
    CurrentStep(s, l);
    OpsStep(s, l);
  }
}
