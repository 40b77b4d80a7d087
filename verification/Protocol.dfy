/**
The fork/kill protocol of `agentfork/orchestrator.py` as a state machine.

A step is one region under the orchestrator lock, one backend call, or an event
from outside.  Backend calls may raise with or without having taken effect, a
persist either commits atomically or raises, and the process may die between any
two steps.  Operations of different threads interleave freely.
*/
module Protocol {
  import opened Common

  type Id = string

  datatype Phase = Forking | Live | Killing

  datatype Record = Record(parent: Option<Id>, phase: Phase, lease: Option<int>)

  /** Where a creation stands: the backend call or lock region it does next. */
  datatype SpawnStep =
    | CreateKv
    | SpawnSandbox
    | CommitLive
    | RollKv
    | RollSandbox(failed: bool)
    | RollForget
    | Unwind

  datatype KillStep = ReapSandbox | ReapKv | ForgetRecord | Abandon

  /** An operation in flight. */
  datatype Op =
    | Spawning(id: Id, parent: Option<Id>, spawn: SpawnStep)
    | Reaping(id: Id, kill: KillStep, sweep: bool)

  /** `_closing` and `_closed`, with the progress of the final sweep. */
  datatype Life = Open | Draining | Sweeping(todo: set<Id>, failed: bool) | Closed(clean: bool)

  datatype State = State(
    up: bool,
    mem: map<Id, Record>,
    disk: map<Id, Record>,
    spawning: set<Id>,
    killing: set<Id>,
    loaded: set<Id>,
    life: Life,
    ops: map<nat, Op>,
    kv: set<Id>,
    sandbox: set<Id>,
    lost: set<Id>)

  const INITIAL := State(true, map[], map[], {}, {}, {}, Open, map[], {}, {}, {})

  /** One step; `ok` says the call returned, `effect` what a raising call did. */
  datatype Label =
    | Create(op: nat, id: Id, lease: Option<int>, ok: bool)
    | Fork(parent: Id, spawns: map<nat, Id>, lease: Option<int>, ok: bool)
    | KvCreate(op: nat, ok: bool, effect: bool)
    | SandboxSpawn(op: nat, ok: bool, effect: bool)
    | NotReady(op: nat)
    | Commit(op: nat, ok: bool)
    | RollbackKv(op: nat, ok: bool, effect: bool)
    | RollbackSandbox(op: nat, ok: bool, effect: bool)
    | RollbackForget(op: nat, ok: bool)
    | Finally(op: nat)
    | Kill(op: nat, id: Id, ok: bool)
    | SweepKill(op: nat, id: Id, ok: bool)
    | KillSandbox(op: nat, ok: bool, effect: bool)
    | KillKv(op: nat, ok: bool, effect: bool)
    | GiveUp(op: nat)
    | Finish(op: nat, ok: bool)
    | Renew(id: Id, until: int, ok: bool)
    | SandboxDies(id: Id)
    | BeginClose
    | Drained
    | EndClose
    | Crash(kvLeft: set<Id>, sandboxLeft: set<Id>)
    | Load

  predicate SpawnAt(s: State, op: nat, step: SpawnStep) {
    op in s.ops && s.ops[op].Spawning? && s.ops[op].spawn == step
  }

  predicate KillAt(s: State, op: nat, step: KillStep) {
    op in s.ops && s.ops[op].Reaping? && s.ops[op].kill == step
  }

  predicate LiveRecord(s: State, id: Id) {
    id in s.mem && s.mem[id].phase == Live
  }

  /** Distinct operations for distinct children. */
  predicate Injective(spawns: map<nat, Id>) {
    forall a, b | a in spawns && b in spawns && spawns[a] == spawns[b] :: a == b
  }

  /** When a step can be taken: the guards of the lock regions. */
  predicate Enabled(s: State, l: Label) {
    match l
    case Create(op, id, _, _) => s.up && s.life.Open? && op !in s.ops && id !in s.mem
    case Fork(parent, spawns, _, _) =>
      && s.up && s.life.Open? && LiveRecord(s, parent)
      && spawns.Keys !! s.ops.Keys && spawns.Values !! s.mem.Keys && Injective(spawns)
    case KvCreate(op, _, _) => s.up && SpawnAt(s, op, CreateKv)
    case SandboxSpawn(op, _, _) => s.up && SpawnAt(s, op, SpawnSandbox)
    case NotReady(op) => s.up && SpawnAt(s, op, CommitLive)
    case Commit(op, _) => s.up && SpawnAt(s, op, CommitLive)
    case RollbackKv(op, _, _) => s.up && SpawnAt(s, op, RollKv)
    case RollbackSandbox(op, _, _) =>
      s.up && op in s.ops && s.ops[op].Spawning? && s.ops[op].spawn.RollSandbox?
    case RollbackForget(op, _) => s.up && SpawnAt(s, op, RollForget)
    case Finally(op) => s.up && SpawnAt(s, op, Unwind)
    case Kill(op, id, _) =>
      s.up && s.life.Open? && op !in s.ops && id in s.mem && id !in s.killing && id !in s.spawning
    case SweepKill(op, id, _) =>
      s.up && s.life.Sweeping? && id in s.life.todo && op !in s.ops && id in s.mem && id !in s.killing && id !in s.spawning
    case KillSandbox(op, _, _) => s.up && KillAt(s, op, ReapSandbox)
    case KillKv(op, _, _) => s.up && KillAt(s, op, ReapKv)
    case GiveUp(op) => s.up && KillAt(s, op, Abandon)
    case Finish(op, _) => s.up && KillAt(s, op, ForgetRecord)
    case Renew(id, _, _) => s.up && s.life.Open? && LiveRecord(s, id)
    case SandboxDies(id) => id in s.sandbox
    case BeginClose => s.up && s.life.Open?
    case Drained => s.up && s.life.Draining? && s.spawning == {} && s.killing == {}
    case EndClose => s.up && s.life.Sweeping? && s.life.todo == {} && s.ops == map[]
    case Crash(kvLeft, sandboxLeft) => s.up && kvLeft <= s.kv && sandboxLeft <= s.sandbox
    case Load => !s.up
  }

  function Goto(s: State, op: nat, step: SpawnStep): State
    requires op in s.ops && s.ops[op].Spawning?
  {
    s.(ops := s.ops[op := s.ops[op].(spawn := step)])
  }

  function KillGoto(s: State, op: nat, step: KillStep): State
    requires op in s.ops && s.ops[op].Reaping?
  {
    s.(ops := s.ops[op := s.ops[op].(kill := step)])
  }

  /** Write one record, in memory and on disk, or raise and leave both. */
  function Write(s: State, id: Id, r: Record, ok: bool): State {
    if ok then s.(mem := s.mem[id := r], disk := s.mem[id := r]) else s
  }

  /** `_forget`. */
  function Forget(s: State, id: Id, ok: bool): State {
    if ok then s.(mem := s.mem - {id}, disk := s.mem - {id}, loaded := s.loaded - {id}) else s
  }

  /** A sweep kill that raised is remembered until close reports it. */
  function Failed(s: State, sweep: bool): State {
    if sweep && s.life.Sweeping? then s.(life := s.life.(failed := true)) else s
  }

  function BeginKill(s: State, op: nat, id: Id, ok: bool, sweep: bool): State
    requires id in s.mem
  {
    if ok then
      Write(s, id, s.mem[id].(phase := Killing), true).(killing := s.killing + {id}, ops := s.ops[op := Reaping(id, ReapSandbox, sweep)])
    else Failed(s, sweep)
  }

  /** The effect of a step. */
  function Next(s: State, l: Label): State
    requires Enabled(s, l)
  {
    match l
    case Create(op, id, lease, ok) =>
      if ok then
        Write(s, id, Record(None, Forking, lease), true)
          .(spawning := s.spawning + {id}, ops := s.ops[op := Spawning(id, None, CreateKv)])
      else s
    case Fork(parent, spawns, lease, ok) =>
      if ok then
        var mem := s.mem + map id | id in spawns.Values :: Record(Some(parent), Forking, lease);
        s.(mem := mem, disk := mem, spawning := s.spawning + spawns.Values,
           ops := s.ops + map o | o in spawns :: Spawning(spawns[o], Some(parent), CreateKv))
      else s
    case KvCreate(op, ok, effect) =>
      var t := if ok || effect then s.(kv := s.kv + {s.ops[op].id}) else s;
      Goto(t, op, if ok then SpawnSandbox else RollKv)
    case SandboxSpawn(op, ok, effect) =>
      var t := if ok || effect then s.(sandbox := s.sandbox + {s.ops[op].id}, lost := s.lost - {s.ops[op].id}) else s;
      Goto(t, op, if ok then CommitLive else RollKv)
    case NotReady(op) => Goto(s, op, RollKv)
    case Commit(op, ok) =>
      var o := s.ops[op];
      if o.parent.Some? && !LiveRecord(s, o.parent.value) then Goto(s, op, RollKv)
      else if o.id !in s.mem || !ok then Goto(s, op, RollKv)
      else Goto(Write(s, o.id, s.mem[o.id].(phase := Live), true), op, Unwind)
    case RollbackKv(op, ok, effect) =>
      var t := if ok || effect then s.(kv := s.kv - {s.ops[op].id}) else s;
      Goto(t, op, RollSandbox(!ok))
    case RollbackSandbox(op, ok, effect) =>
      var t := if ok || effect then s.(sandbox := s.sandbox - {s.ops[op].id}) else s;
      Goto(t, op, if ok && !s.ops[op].spawn.failed then RollForget else Unwind)
    case RollbackForget(op, ok) => Goto(Forget(s, s.ops[op].id, ok), op, Unwind)
    case Finally(op) => s.(spawning := s.spawning - {s.ops[op].id}, ops := s.ops - {op})
    case Kill(op, id, ok) => BeginKill(s, op, id, ok, false)
    case SweepKill(op, id, ok) => BeginKill(s.(life := s.life.(todo := s.life.todo - {id})), op, id, ok, true)
    case KillSandbox(op, ok, effect) =>
      var t := if ok || effect then s.(sandbox := s.sandbox - {s.ops[op].id}) else s;
      KillGoto(t, op, if ok then ReapKv else Abandon)
    case KillKv(op, ok, effect) =>
      var t := if ok || effect then s.(kv := s.kv - {s.ops[op].id}) else s;
      KillGoto(t, op, if ok then ForgetRecord else Abandon)
    case GiveUp(op) =>
      Failed(s.(killing := s.killing - {s.ops[op].id}, ops := s.ops - {op}), s.ops[op].sweep)
    case Finish(op, ok) =>
      var t := Forget(s.(killing := s.killing - {s.ops[op].id}, ops := s.ops - {op}), s.ops[op].id, ok);
      if ok then t else Failed(t, s.ops[op].sweep)
    case Renew(id, until, ok) => Write(s, id, s.mem[id].(lease := Some(until)), ok)
    case SandboxDies(id) => s.(sandbox := s.sandbox - {id}, lost := s.lost + {id})
    case BeginClose => s.(life := Draining)
    case Drained => s.(life := Sweeping(s.mem.Keys, false))
    case EndClose => s.(life := Closed(!s.life.failed))
    case Crash(kvLeft, sandboxLeft) =>
      State(false, map[], s.disk, {}, {}, {}, Open, map[], kvLeft, sandboxLeft, s.lost)
    case Load => s.(up := true, mem := s.disk, loaded := s.disk.Keys, life := Open)
  }

  /******* Invariant *******/

  /** No two operations in flight work on the same branch. */
  ghost predicate Exclusive(s: State) {
    forall a, b {:trigger s.ops[a], s.ops[b]} | a in s.ops && b in s.ops && s.ops[a].id == s.ops[b].id :: a == b
  }

  /** The in-flight sets are exactly the ids of the operations in flight. */
  ghost predicate InFlight(s: State) {
    && (forall a | a in s.ops :: s.ops[a].id in (if s.ops[a].Spawning? then s.spawning else s.killing))
    && (forall id | id in s.spawning :: exists a :: a in s.ops && s.ops[a].Spawning? && s.ops[a].id == id)
    && (forall id | id in s.killing :: exists a :: a in s.ops && s.ops[a].Reaping? && s.ops[a].id == id)
  }

  /** What each operation in flight can rely on. */
  ghost predicate OpOk(s: State, o: Op) {
    match o
    case Spawning(id, parent, step) =>
      if step.Unwind? then true
      else
        && id in s.mem && s.mem[id].phase == Forking && s.mem[id].parent == parent && id !in s.loaded
        && (step.SpawnSandbox? || step.CommitLive? ==> id in s.kv)
        && (step.CommitLive? ==> id in s.sandbox || id in s.lost)
        && ((step.RollSandbox? && !step.failed) || step.RollForget? ==> id !in s.kv)
        && (step.RollForget? ==> id !in s.sandbox)
    case Reaping(id, step, _) =>
      && id in s.mem && s.mem[id].phase == Killing
      && (step.ReapKv? || step.ForgetRecord? ==> id !in s.sandbox)
      && (step.ForgetRecord? ==> id !in s.kv)
  }

  ghost predicate OpsOk(s: State) {
    forall a | a in s.ops :: OpOk(s, s.ops[a])
  }

  /** Whatever exists in a backend is recorded; a record this process made live
      has both halves, unless its sandbox died by itself. */
  ghost predicate Accounted(s: State) {
    && s.kv <= s.mem.Keys && s.sandbox <= s.mem.Keys && s.loaded <= s.mem.Keys
    && (forall id | id in s.mem && s.mem[id].phase == Live && id !in s.loaded ::
          id in s.kv && (id in s.sandbox || id in s.lost))
  }

  /** Closing: only the sweep's own kills run, and it misses nothing. */
  ghost predicate ClosingOk(s: State) {
    match s.life
    case Sweeping(todo, failed) =>
      && todo <= s.mem.Keys
      && (forall a | a in s.ops :: s.ops[a].Reaping? && s.ops[a].sweep && s.ops[a].id !in todo)
      && (!failed ==> forall id | id in s.mem :: id in todo || id in s.killing)
    case Closed(clean) => s.ops == map[] && (clean ==> s.mem == map[])
    case _ => forall a | a in s.ops :: s.ops[a].Reaping? ==> !s.ops[a].sweep
  }

  ghost predicate Inv(s: State) {
    if s.up then
      s.mem == s.disk && Exclusive(s) && InFlight(s) && OpsOk(s) && Accounted(s) && ClosingOk(s)
    else
      && s.mem == map[] && s.ops == map[] && s.spawning == {} && s.killing == {} && s.loaded == {}
      && s.kv <= s.disk.Keys && s.sandbox <= s.disk.Keys
  }

  /** A creation of an id whose failed creation has not finished unwinding. */
  predicate Recreates(s: State, l: Label) {
    match l
    case Create(_, id, _, ok) => ok && id in s.spawning
    case Fork(_, spawns, _, ok) => ok && spawns.Values * s.spawning != {}
    case _ => false
  }

  /******* Preservation *******/

  lemma InitialInv()
    ensures Inv(INITIAL)
  {
  }

  /** Adding operations for ids not in flight keeps the in-flight bookkeeping. */
  lemma AddFlight(s: State, t: State, more: map<nat, Op>)
    requires Exclusive(s) && InFlight(s) && t.ops == s.ops + more && more.Keys !! s.ops.Keys
    requires forall a, b | a in more && b in more && more[a].id == more[b].id :: a == b
    requires forall a | a in more :: more[a].id !in s.spawning && more[a].id !in s.killing
    requires forall a | a in more :: more[a].id in (if more[a].Spawning? then t.spawning else t.killing)
    requires s.spawning <= t.spawning && s.killing <= t.killing
    requires forall id | id in t.spawning - s.spawning :: exists a :: a in more && more[a].Spawning? && more[a].id == id
    requires forall id | id in t.killing - s.killing :: exists a :: a in more && more[a].Reaping? && more[a].id == id
    ensures Exclusive(t) && InFlight(t)
  {
    forall id | id in t.spawning ensures exists a :: a in t.ops && t.ops[a].Spawning? && t.ops[a].id == id {
      if id in s.spawning {
        var a :| a in s.ops && s.ops[a].Spawning? && s.ops[a].id == id;
        assert t.ops[a] == s.ops[a];
      } else {
        assert id in t.spawning - s.spawning;
        var a :| a in more && more[a].Spawning? && more[a].id == id;
        assert t.ops[a] == more[a];
      }
    }
    forall id | id in t.killing ensures exists a :: a in t.ops && t.ops[a].Reaping? && t.ops[a].id == id {
      if id in s.killing {
        var a :| a in s.ops && s.ops[a].Reaping? && s.ops[a].id == id;
        assert t.ops[a] == s.ops[a];
      } else {
        assert id in t.killing - s.killing;
        var a :| a in more && more[a].Reaping? && more[a].id == id;
        assert t.ops[a] == more[a];
      }
    }
    forall a | a in t.ops ensures t.ops[a].id in (if t.ops[a].Spawning? then t.spawning else t.killing) {
      if a in more { assert t.ops[a] == more[a]; } else { assert t.ops[a] == s.ops[a]; }
    }
  }

  lemma CreateInv(s: State, l: Label)
    requires s.up && Inv(s) && l.Create? && Enabled(s, l) && !Recreates(s, l)
    ensures Inv(Next(s, l))
  {
    hide InFlight, Exclusive;
    var t := Next(s, l);
    if l.ok {
      var o := Spawning(l.id, None, CreateKv);
      NotKilling(s, l.id);
      assert t.ops == s.ops + map[l.op := o];
      assert l.op in map[l.op := o] && map[l.op := o][l.op].id == l.id;
      AddFlight(s, t, map[l.op := o]);
      forall a | a in t.ops ensures OpOk(t, t.ops[a]) { if a != l.op { assert OpOk(s, s.ops[a]); } }
    }
  }

  lemma NotKilling(s: State, id: Id)
    requires s.up && Inv(s) && id !in s.mem
    ensures id !in s.killing
  {
    hide Exclusive, Accounted, ClosingOk;
    forall a | a in s.ops && s.ops[a].Reaping? ensures s.ops[a].id in s.mem { assert OpOk(s, s.ops[a]); }
  }

  /** Forking adds one operation per child, on ids nothing else works on. */
  lemma ForkFlight(s: State, l: Label)
    requires s.up && Inv(s) && l.Fork? && l.ok && Enabled(s, l) && !Recreates(s, l)
    ensures Exclusive(Next(s, l)) && InFlight(Next(s, l))
  {
    hide InFlight, Exclusive, OpsOk, Accounted, ClosingOk;
    var t := Next(s, l);
    var more := map o | o in l.spawns :: Spawning(l.spawns[o], Some(l.parent), CreateKv);
    forall a | a in more ensures more[a].id !in s.killing && more[a].id !in s.spawning && more[a].id in t.spawning {
      assert l.spawns[a] in l.spawns.Values;
      assert l.spawns[a] !in l.spawns.Values * s.spawning;
      NotKilling(s, l.spawns[a]);
    }
    forall id | id in t.spawning - s.spawning ensures exists a :: a in more && more[a].Spawning? && more[a].id == id {
      var a :| a in l.spawns && l.spawns[a] == id;
      assert more[a].id == id;
    }
    AddFlight(s, t, more);
  }

  lemma ForkAccounted(s: State, l: Label)
    requires s.up && Inv(s) && l.Fork? && l.ok && Enabled(s, l)
    ensures Accounted(Next(s, l)) && ClosingOk(Next(s, l))
  {
    hide InFlight, Exclusive, OpsOk;
    var t := Next(s, l);
    forall a | a in t.ops && t.ops[a].Reaping? ensures !t.ops[a].sweep { assert a in s.ops && t.ops[a] == s.ops[a]; }
  }

  lemma ForkInv(s: State, l: Label)
    requires s.up && Inv(s) && l.Fork? && Enabled(s, l) && !Recreates(s, l)
    ensures Inv(Next(s, l))
  {
    hide InFlight, Exclusive, Accounted, ClosingOk, OpOk;
    if l.ok {
      ForkFlight(s, l);
      ForkAccounted(s, l);
      forall a | a in Next(s, l).ops ensures OpOk(Next(s, l), Next(s, l).ops[a]) { ForkOpOk(s, l, a); }
    }
  }

  lemma ForkOpOk(s: State, l: Label, a: nat)
    requires s.up && Inv(s) && l.Fork? && l.ok && Enabled(s, l) && a in Next(s, l).ops
    ensures OpOk(Next(s, l), Next(s, l).ops[a])
  {
    hide InFlight, Exclusive, ClosingOk;
    if a in l.spawns {
      assert l.spawns[a] in l.spawns.Values;
    } else {
      assert OpOk(s, s.ops[a]);
    }
  }

  /** `t` differs from `s` only in the step of `op` and in what exists of its id. */
  ghost predicate Moved(s: State, t: State, op: nat) {
    && op in s.ops && op in t.ops && t.ops[op].id == s.ops[op].id && t.ops[op].Spawning? == s.ops[op].Spawning?
    && t.ops.Keys == s.ops.Keys && (forall a | a in s.ops && a != op :: t.ops[a] == s.ops[a])
    && (s.ops[op].Reaping? ==> t.ops[op].sweep == s.ops[op].sweep)
    && t.up == s.up && t.mem == s.mem && t.disk == s.disk && t.spawning == s.spawning && t.killing == s.killing
    && t.loaded == s.loaded && t.life == s.life
    && t.kv - {s.ops[op].id} == s.kv - {s.ops[op].id}
    && t.sandbox - {s.ops[op].id} == s.sandbox - {s.ops[op].id}
    && t.lost - {s.ops[op].id} == s.lost - {s.ops[op].id}
  }

  /** Another operation's expectations survive a backend call of `op`. */
  lemma OthersOk(s: State, t: State, op: nat, a: nat)
    requires s.up && Inv(s) && Moved(s, t, op) && a in s.ops && a != op
    ensures OpOk(t, t.ops[a])
  {
    var id, x := s.ops[op].id, s.ops[a].id;
    assert x != id;
    assert OpOk(s, s.ops[a]);
    assert x in t.kv <==> x in t.kv - {id};
    assert x in s.kv <==> x in s.kv - {id};
    assert x in t.sandbox <==> x in t.sandbox - {id};
    assert x in s.sandbox <==> x in s.sandbox - {id};
    assert x in t.lost <==> x in t.lost - {id};
    assert x in s.lost <==> x in s.lost - {id};
  }

  lemma MovedFlight(s: State, t: State, op: nat)
    requires Exclusive(s) && InFlight(s) && Moved(s, t, op)
    ensures Exclusive(t) && InFlight(t)
  {
    forall a | a in t.ops ensures t.ops[a].id == s.ops[a].id && t.ops[a].Spawning? == s.ops[a].Spawning? { }
    forall id | id in t.spawning ensures exists a :: a in t.ops && t.ops[a].Spawning? && t.ops[a].id == id {
      var a :| a in s.ops && s.ops[a].Spawning? && s.ops[a].id == id;
      assert a in t.ops && t.ops[a].Spawning? && t.ops[a].id == id;
    }
    forall id | id in t.killing ensures exists a :: a in t.ops && t.ops[a].Reaping? && t.ops[a].id == id {
      var a :| a in s.ops && s.ops[a].Reaping? && s.ops[a].id == id;
      assert a in t.ops && t.ops[a].Reaping? && t.ops[a].id == id;
    }
  }

  lemma MovedInFlight(s: State, t: State, op: nat)
    requires s.up && Inv(s) && Moved(s, t, op)
    ensures Exclusive(t) && InFlight(t) && ClosingOk(t)
  {
    hide InFlight, Exclusive, OpsOk, Accounted;
    MovedFlight(s, t, op);
  }

  lemma MovedAccounted(s: State, t: State, op: nat)
    requires s.up && Inv(s) && Moved(s, t, op) && s.ops[op].id in s.mem
    requires s.mem[s.ops[op].id].phase != Live
    ensures Accounted(t)
  {
    var id := s.ops[op].id;
    forall x | x in t.kv ensures x in t.mem { if x != id { assert x in t.kv - {id}; } }
    forall x | x in t.sandbox ensures x in t.mem { if x != id { assert x in t.sandbox - {id}; } }
    forall x | x in t.mem && t.mem[x].phase == Live && x !in t.loaded
      ensures x in t.kv && (x in t.sandbox || x in t.lost)
    {
      assert x in s.kv - {id};
      assert x in s.sandbox ==> x in s.sandbox - {id};
      assert x in s.lost ==> x in s.lost - {id};
    }
  }

  /** A backend call keeps the invariant if what the operation itself expects next holds. */
  lemma MovedInv(s: State, t: State, op: nat)
    requires s.up && Inv(s) && Moved(s, t, op) && s.ops[op].id in s.mem
    requires s.mem[s.ops[op].id].phase != Live && OpOk(t, t.ops[op])
    ensures Inv(t)
  {
    hide InFlight, Exclusive, Accounted, ClosingOk;
    forall a | a in t.ops ensures OpOk(t, t.ops[a]) { if a != op { OthersOk(s, t, op, a); } }
    MovedInFlight(s, t, op);
    MovedAccounted(s, t, op);
  }

  /** A backend call moves its own operation and touches nothing of another id. */
  lemma BackendMoves(s: State, l: Label)
    requires s.up && Inv(s) && Enabled(s, l)
    requires l.KvCreate? || l.SandboxSpawn? || l.NotReady? || l.RollbackKv? || l.RollbackSandbox? || l.KillSandbox? || l.KillKv?
    ensures l.op in s.ops && Moved(s, Next(s, l), l.op)
  {
    hide InFlight, Exclusive, Accounted, ClosingOk, OpsOk, OpOk;
  }

  lemma BackendInv(s: State, l: Label)
    requires s.up && Inv(s) && Enabled(s, l)
    requires l.KvCreate? || l.SandboxSpawn? || l.NotReady? || l.RollbackKv? || l.RollbackSandbox? || l.KillSandbox? || l.KillKv?
    ensures Inv(Next(s, l))
  {
    hide InFlight, Exclusive, Accounted, ClosingOk, Moved;
    BackendMoves(s, l);
    assert OpOk(s, s.ops[l.op]);
    MovedInv(s, Next(s, l), l.op);
  }

  /** A creation that fails its commit goes to rollback. */
  lemma CommitFails(s: State, l: Label)
    requires s.up && Inv(s) && l.Commit? && Enabled(s, l) && SpawnAt(Next(s, l), l.op, RollKv)
    ensures Inv(Next(s, l))
  {
    hide InFlight, Exclusive, Accounted, ClosingOk;
    var t := Next(s, l);
    assert OpOk(s, s.ops[l.op]);
    assert Moved(s, t, l.op);
    MovedInv(s, t, l.op);
  }

  /** Ending operation `op` leaves the expectations of the others alone. */
  lemma OthersUnwound(s: State, t: State, op: nat)
    requires s.up && Inv(s) && op in s.ops && t.ops.Keys <= s.ops.Keys
    requires forall a | a in t.ops && a != op :: t.ops[a] == s.ops[a]
    requires forall x | x != s.ops[op].id :: (x in t.mem <==> x in s.mem) && (x in s.mem ==> t.mem[x] == s.mem[x])
    requires t.kv == s.kv && t.sandbox == s.sandbox && t.lost == s.lost && t.loaded <= s.loaded
    requires op in t.ops ==> OpOk(t, t.ops[op])
    ensures OpsOk(t)
  {
    hide InFlight, Accounted, ClosingOk;
    forall a | a in t.ops && a != op ensures OpOk(t, t.ops[a]) {
      assert OpOk(s, s.ops[a]);
      assert s.ops[a].id != s.ops[op].id;
    }
  }

  lemma CommitInv(s: State, l: Label)
    requires s.up && Inv(s) && l.Commit? && Enabled(s, l)
    ensures Inv(Next(s, l))
  {
    hide InFlight, Exclusive, ClosingOk;
    var t := Next(s, l);
    if SpawnAt(t, l.op, RollKv) {
      CommitFails(s, l);
    } else {
      assert OpOk(s, s.ops[l.op]);
      var m := Goto(s, l.op, Unwind);
      MovedInFlight(s, m, l.op);
      SameFlight(m, t);
      SpawnNotSweeping(s, l.op);
      SameClosing(m, t);
      OthersUnwound(s, t, l.op);
    }
  }

  lemma SameClosing(s: State, t: State)
    requires ClosingOk(s) && t.ops == s.ops && t.life == s.life && t.mem.Keys == s.mem.Keys && t.killing == s.killing
    requires !s.life.Closed?
    ensures ClosingOk(t)
  {
  }

  lemma RollbackForgetInv(s: State, l: Label)
    requires s.up && Inv(s) && l.RollbackForget? && Enabled(s, l)
    ensures Inv(Next(s, l))
  {
    hide InFlight, Exclusive;
    var t := Next(s, l);
    assert OpOk(s, s.ops[l.op]);
    var m := Goto(s, l.op, Unwind);
    MovedInFlight(s, m, l.op);
    SameFlight(m, t);
    OthersUnwound(s, t, l.op);
    SpawnNotSweeping(s, l.op);
  }

  /** While a creation is in flight the final sweep has not begun. */
  lemma SpawnNotSweeping(s: State, op: nat)
    requires s.up && Inv(s) && op in s.ops && s.ops[op].Spawning?
    ensures !s.life.Sweeping? && !s.life.Closed?
  {
  }

  lemma RemoveOp(s: State, t: State, op: nat)
    requires s.up && Inv(s) && op in s.ops && t.ops == s.ops - {op}
    requires t.spawning == (if s.ops[op].Spawning? then s.spawning - {s.ops[op].id} else s.spawning)
    requires t.killing == (if s.ops[op].Reaping? then s.killing - {s.ops[op].id} else s.killing)
    ensures Exclusive(t) && InFlight(t)
  {
    forall id | id in t.spawning ensures exists a :: a in t.ops && t.ops[a].Spawning? && t.ops[a].id == id {
      var a :| a in s.ops && s.ops[a].Spawning? && s.ops[a].id == id;
      assert a != op;
      assert a in t.ops && t.ops[a] == s.ops[a];
    }
    forall id | id in t.killing ensures exists a :: a in t.ops && t.ops[a].Reaping? && t.ops[a].id == id {
      var a :| a in s.ops && s.ops[a].Reaping? && s.ops[a].id == id;
      assert a != op;
      assert a in t.ops && t.ops[a] == s.ops[a];
    }
    forall a | a in t.ops ensures t.ops[a].id in (if t.ops[a].Spawning? then t.spawning else t.killing) {
      assert s.ops[a].id != s.ops[op].id;
    }
  }

  lemma FinallyInv(s: State, l: Label)
    requires s.up && Inv(s) && l.Finally? && Enabled(s, l)
    ensures Inv(Next(s, l))
  {
    var t := Next(s, l);
    RemoveOp(s, t, l.op);
    SpawnNotSweeping(s, l.op);
    forall a | a in t.ops ensures OpOk(t, t.ops[a]) { assert OpOk(s, s.ops[a]); }
  }

  /** A kill starts only on an id nothing else works on. */
  lemma BeginKillFlight(s: State, l: Label)
    requires s.up && Inv(s) && (l.Kill? || l.SweepKill?) && Enabled(s, l)
    ensures Exclusive(Next(s, l)) && InFlight(Next(s, l))
  {
    hide Exclusive, InFlight, OpsOk, Accounted, ClosingOk;
    var t := Next(s, l);
    if l.ok {
      var o := Reaping(l.id, ReapSandbox, l.SweepKill?);
      assert t.ops == s.ops + map[l.op := o];
      assert l.op in map[l.op := o] && map[l.op := o][l.op].id == l.id;
      AddFlight(s, t, map[l.op := o]);
    } else {
      SameFlight(s, t);
    }
  }

  lemma BeginKillInv(s: State, l: Label)
    requires s.up && Inv(s) && (l.Kill? || l.SweepKill?) && Enabled(s, l)
    ensures Inv(Next(s, l))
  {
    hide Exclusive, InFlight;
    var t := Next(s, l);
    NotInFlight(s, l.id);
    BeginKillFlight(s, l);
    forall a | a in t.ops ensures OpOk(t, t.ops[a]) { if a in s.ops { assert OpOk(s, s.ops[a]); } }
  }

  lemma NotInFlight(s: State, id: Id)
    requires InFlight(s) && id !in s.spawning && id !in s.killing
    ensures forall a | a in s.ops :: s.ops[a].id != id
  {
  }

  lemma SameFlight(s: State, t: State)
    requires Exclusive(s) && InFlight(s) && t.ops == s.ops && t.spawning == s.spawning && t.killing == s.killing
    ensures Exclusive(t) && InFlight(t)
  {
  }

  lemma EndKillInv(s: State, l: Label)
    requires s.up && Inv(s) && (l.GiveUp? || l.Finish?) && Enabled(s, l)
    ensures Inv(Next(s, l))
  {
    var t := Next(s, l);
    assert OpOk(s, s.ops[l.op]);
    RemoveOp(s, t, l.op);
    forall a | a in t.ops ensures OpOk(t, t.ops[a]) { assert OpOk(s, s.ops[a]); assert s.ops[a].id != s.ops[l.op].id; }
    assert Accounted(t);
    EndKillClosing(s, l);
  }

  lemma EndKillClosing(s: State, l: Label)
    requires s.up && Inv(s) && (l.GiveUp? || l.Finish?) && Enabled(s, l)
    ensures ClosingOk(Next(s, l))
  {
    var t := Next(s, l);
    assert OpOk(s, s.ops[l.op]);
    if s.life.Sweeping? {
      assert s.ops[l.op].sweep;
    }
  }

  lemma RenewInv(s: State, l: Label)
    requires s.up && Inv(s) && l.Renew? && Enabled(s, l)
    ensures Inv(Next(s, l))
  {
    var t := Next(s, l);
    forall a | a in t.ops ensures OpOk(t, t.ops[a]) { assert OpOk(s, s.ops[a]); }
    assert InFlight(t);
  }

  lemma SandboxDiesInv(s: State, l: Label)
    requires Inv(s) && l.SandboxDies? && Enabled(s, l)
    ensures Inv(Next(s, l))
  {
    var t := Next(s, l);
    if s.up {
      forall a | a in t.ops ensures OpOk(t, t.ops[a]) { assert OpOk(s, s.ops[a]); }
      assert InFlight(t);
    }
  }

  lemma CloseInv(s: State, l: Label)
    requires s.up && Inv(s) && (l.BeginClose? || l.Drained? || l.EndClose?) && Enabled(s, l)
    ensures Inv(Next(s, l))
  {
    var t := Next(s, l);
    forall a | a in t.ops ensures OpOk(t, t.ops[a]) { assert OpOk(s, s.ops[a]); }
    assert InFlight(t);
    if l.Drained? { QuietWhenDrained(s); }
  }

  /** With both in-flight sets empty nothing is in flight. */
  lemma QuietWhenDrained(s: State)
    requires InFlight(s) && s.spawning == {} && s.killing == {}
    ensures s.ops == map[]
  {
    assert forall a :: a !in s.ops;
  }

  lemma CrashLoadInv(s: State, l: Label)
    requires Inv(s) && (l.Crash? || l.Load?) && Enabled(s, l)
    ensures Inv(Next(s, l))
  {
  }

  lemma UpWhen(s: State, l: Label)
    requires Enabled(s, l)
    ensures l.Load? || l.SandboxDies? || s.up
  {
  }

  /** Every step keeps the invariant, unless it re-creates an unwinding id. */
  lemma StepInv(s: State, l: Label)
    requires Inv(s) && Enabled(s, l) && !Recreates(s, l)
    ensures Inv(Next(s, l))
  {
    hide Inv, Next, Recreates, Enabled;
    UpWhen(s, l);
    match l
    case Create(_, _, _, _) => CreateInv(s, l);
    case Fork(_, _, _, _) => ForkInv(s, l);
    case Commit(_, _) => CommitInv(s, l);
    case RollbackForget(_, _) => RollbackForgetInv(s, l);
    case Finally(_) => FinallyInv(s, l);
    case Kill(_, _, _) => BeginKillInv(s, l);
    case SweepKill(_, _, _) => BeginKillInv(s, l);
    case GiveUp(_) => EndKillInv(s, l);
    case Finish(_, _) => EndKillInv(s, l);
    case Renew(_, _, _) => RenewInv(s, l);
    case SandboxDies(_) => SandboxDiesInv(s, l);
    case BeginClose => CloseInv(s, l);
    case Drained => CloseInv(s, l);
    case EndClose => CloseInv(s, l);
    case Crash(_, _) => CrashLoadInv(s, l);
    case Load => CrashLoadInv(s, l);
    case _ => BackendInv(s, l);
  }
}
