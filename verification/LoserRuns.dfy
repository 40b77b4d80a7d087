/**
`kill_losers` of `agentfork/orchestrator.py` as one call among other threads: the sweep
over the losers, the no-op receipts for branches somebody else is working on, and the
loop that waits for those to settle and kills them again.

A step of the system is a protocol step of another thread or a step of the call.
*/
module LoserRuns {
  import opened Common
  import opened Protocol
  import opened ProtocolRuns
  import Orchestrator

  /** How far the call is with one loser. */
  datatype Status = Untried | Started(op: nat) | Skipped | Reaped | Absent | Errored

  /** `receipts` is what the call will return: for each branch, was it reaped by this call? */
  datatype Config = Config(s: State, status: map<Id, Status>, receipts: map<Id, bool>)

  datatype Step =
    | Theirs(l: Label)
    | Skip(id: Id)
    | Begin(op: nat, id: Id, ok: bool)
    | Own(l: Label)
    | Look(id: Id)

  /** One of the call's own kills. */
  ghost predicate Mine(c: Config, op: nat) {
    exists id :: id in c.status && c.status[id] == Started(op)
  }

  /** The sweep is over without error and no second kill is running. */
  predicate Settled(c: Config) {
    forall id | id in c.status :: c.status[id].Skipped? || c.status[id].Reaped? || c.status[id].Absent?
  }

  /** `kill(id)` may be called: by the sweep once, or again by the settle loop. */
  predicate MayKill(c: Config, id: Id) {
    id in c.status && (c.status[id].Untried? || (c.status[id].Skipped? && Settled(c))) && c.s.up && c.s.life.Open?
  }

  /** A step can be taken.  The process does not die during the call. */
  ghost predicate CanTake(c: Config, step: Step) {
    match step
    case Theirs(l) => Enabled(c.s, l) && !Recreates(c.s, l) && !l.Crash? && (Continues(l) ==> !Mine(c, l.op))
    case Skip(id) => MayKill(c, id) && (id !in c.s.mem || id in c.s.killing || id in c.s.spawning)
    case Begin(op, id, ok) => MayKill(c, id) && Enabled(c.s, Kill(op, id, ok))
    case Own(l) => Continues(l) && Mine(c, l.op) && Enabled(c.s, l)
    case Look(id) => id in c.status && c.status[id].Skipped? && Settled(c) && id !in c.s.mem
  }

  /** The end of an own kill gives the receipt or the error. */
  ghost function Take(c: Config, step: Step): Config
    requires CanTake(c, step)
  {
    match step
    case Theirs(l) => c.(s := Next(c.s, l))
    case Skip(id) => c.(status := c.status[id := Skipped], receipts := c.receipts[id := false])
    case Begin(op, id, ok) => c.(s := Next(c.s, Kill(op, id, ok)), status := c.status[id := if ok then Started(op) else Errored])
    case Own(l) =>
      if l.Finish? && l.ok then
        Config(Next(c.s, l), c.status[c.s.ops[l.op].id := Reaped], c.receipts[c.s.ops[l.op].id := true])
      else if l.Finish? || l.GiveUp? then c.(s := Next(c.s, l), status := c.status[c.s.ops[l.op].id := Errored])
      else c.(s := Next(c.s, l))
    case Look(id) => c.(status := c.status[id := Absent])
  }

  ghost predicate Proper(c: Config, run: seq<Step>)
    decreases |run|, 0
  {
    run == [] || (Proper(c, run[..|run| - 1]) && CanTake(Reach(c, run[..|run| - 1]), run[|run| - 1]))
  }

  ghost function Reach(c: Config, run: seq<Step>): Config
    requires Proper(c, run)
    decreases |run|, 1
  {
    if run == [] then c else Take(Reach(c, run[..|run| - 1]), run[|run| - 1])
  }

  /** The call begins: the losers are those recorded at entry outside the winner's line. */
  ghost function Entry(s: State, winner: Id): Config {
    Config(s, map id | id in Orchestrator.Losers(s.mem, winner) :: Untried, map[])
  }

  /** The call returns normally when the settle loop is through with every loser. */
  predicate Returns(c: Config) {
    forall id | id in c.status :: c.status[id].Reaped? || c.status[id].Absent?
  }

  /** At some moment of the run the branch was recorded neither in memory nor on disk. */
  ghost predicate WasAbsent(c: Config, run: seq<Step>, id: Id)
    requires Proper(c, run)
  {
    exists i {:trigger run[..i]} :: 0 <= i <= |run| && Proper(c, run[..i]) && id !in Reach(c, run[..i]).s.mem && id !in Reach(c, run[..i]).s.disk
  }

  /** Step `i` of the run is the successful end of the call's own kill of `id`. */
  ghost predicate Finishes(c: Config, run: seq<Step>, i: nat, id: Id)
    requires i < |run|
  {
    && run[i].Own? && run[i].l.Finish? && run[i].l.ok && Proper(c, run[..i])
    && run[i].l.op in Reach(c, run[..i]).s.ops && Reach(c, run[..i]).s.ops[run[i].l.op].id == id
  }

  ghost predicate OwnFinish(c: Config, run: seq<Step>, id: Id) {
    exists i: nat :: i < |run| && Finishes(c, run, i, id)
  }

  /******* Invariant of the call *******/

  /** The call's own kills are in flight under their ids, and its receipts say how far it is. */
  ghost predicate LoserOk(c: Config, id: Id)
    requires id in c.status
  {
    match c.status[id]
    case Started(op) => op in c.s.ops && c.s.ops[op].Reaping? && c.s.ops[op].id == id && (id in c.receipts ==> !c.receipts[id])
    case Untried => id !in c.receipts
    case Reaped => id in c.receipts && c.receipts[id]
    case Skipped => id in c.receipts && !c.receipts[id]
    case Absent => id in c.receipts && !c.receipts[id]
    case Errored => true
  }

  ghost predicate CallOk(c: Config) {
    && Inv(c.s) && c.s.up && c.receipts.Keys <= c.status.Keys
    && forall id | id in c.status :: LoserOk(c, id)
  }

  /** A step of another operation leaves `op` where it is. */
  lemma Untouched(s: State, l: Label, op: nat)
    requires s.up && Enabled(s, l) && !l.Crash? && op in s.ops && !(Continues(l) && l.op == op)
    ensures op in Next(s, l).ops && Next(s, l).ops[op] == s.ops[op]
  {
  }

  lemma UpStays(s: State, l: Label)
    requires s.up && Enabled(s, l) && !l.Crash?
    ensures Next(s, l).up
  {
  }

  lemma TheirsOk(c: Config, l: Label)
    requires CallOk(c) && CanTake(c, Theirs(l))
    ensures CallOk(Take(c, Theirs(l)))
  {
    hide Inv, Enabled, Next, Recreates;
    StepInv(c.s, l);
    UpStays(c.s, l);
    var d := Take(c, Theirs(l));
    forall id | id in d.status ensures LoserOk(d, id) {
      assert LoserOk(c, id);
      if c.status[id].Started? { Untouched(c.s, l, c.status[id].op); }
    }
  }

  lemma BeginOk(c: Config, op: nat, id: Id, ok: bool)
    requires CallOk(c) && CanTake(c, Begin(op, id, ok))
    ensures CallOk(Take(c, Begin(op, id, ok)))
  {
    hide Inv;
    var l := Kill(op, id, ok);
    StepInv(c.s, l);
    var d := Take(c, Begin(op, id, ok));
    forall x | x in d.status ensures LoserOk(d, x) {
      assert LoserOk(c, x);
      if x != id && c.status[x].Started? { Untouched(c.s, l, c.status[x].op); }
    }
  }

  /** An own kill belongs to the loser whose id it has. */
  lemma OwnKill(c: Config, l: Label)
    requires CallOk(c) && CanTake(c, Own(l))
    ensures l.op in c.s.ops && c.s.ops[l.op].Reaping? && c.s.ops[l.op].id in c.status && c.status[c.s.ops[l.op].id] == Started(l.op)
    ensures !Recreates(c.s, l) && !l.Crash?
    ensures forall id | id in c.status && c.status[id] == Started(l.op) :: id == c.s.ops[l.op].id
  {
    hide Inv, Enabled;
    var id :| id in c.status && c.status[id] == Started(l.op);
    assert LoserOk(c, id);
    forall x | x in c.status && c.status[x] == Started(l.op) ensures x == c.s.ops[l.op].id { assert LoserOk(c, x); }
  }

  lemma KillMoves(s: State, l: Label)
    requires Enabled(s, l) && Continues(l) && l.op in s.ops && s.ops[l.op].Reaping? && !l.Finish? && !l.GiveUp?
    ensures l.op in Next(s, l).ops && Next(s, l).ops[l.op].Reaping? && Next(s, l).ops[l.op].id == s.ops[l.op].id
  {
  }

  lemma OwnOk(c: Config, l: Label)
    requires CallOk(c) && CanTake(c, Own(l))
    ensures CallOk(Take(c, Own(l)))
  {
    hide Inv, Enabled, Next, Recreates, Mine;
    OwnKill(c, l);
    StepInv(c.s, l);
    UpStays(c.s, l);
    var d := Take(c, Own(l));
    forall x | x in d.status ensures LoserOk(d, x) {
      assert LoserOk(c, x);
      if c.status[x].Started? && c.status[x].op != l.op { Untouched(c.s, l, c.status[x].op); }
      if c.status[x] == Started(l.op) && !l.Finish? && !l.GiveUp? { KillMoves(c.s, l); }
    }
  }

  lemma NoteOk(c: Config, step: Step)
    requires CallOk(c) && CanTake(c, step) && (step.Skip? || step.Look?)
    ensures CallOk(Take(c, step))
  {
    hide Inv, Enabled, Next;
    var d := Take(c, step);
    forall x | x in d.status ensures LoserOk(d, x) { assert LoserOk(c, x); }
  }

  lemma CallStep(c: Config, step: Step)
    requires CallOk(c) && CanTake(c, step)
    ensures CallOk(Take(c, step)) && Take(c, step).status.Keys == c.status.Keys
  {
    hide CallOk;
    match step
    case Theirs(l) => TheirsOk(c, l);
    case Begin(op, id, ok) => BeginOk(c, op, id, ok);
    case Own(l) => OwnOk(c, l); OwnKill(c, l);
    case Skip(_) => NoteOk(c, step);
    case Look(_) => NoteOk(c, step);
  }

  /** Being reaped is final, and comes only from the call's own finish. */
  lemma ReapedStep(c: Config, step: Step, id: Id)
    requires CallOk(c) && CanTake(c, step) && id in c.status
    ensures id in Take(c, step).status
    ensures Take(c, step).status[id].Reaped? <==>
              c.status[id].Reaped? || (step.Own? && step.l.Finish? && step.l.ok && step.l.op in c.s.ops && c.s.ops[step.l.op].id == id)
  {
    if step.Own? { OwnKill(c, step.l); }
    hide Inv, Next;
  }

  /** A loser is done with only at a moment when it is recorded nowhere. */
  lemma DoneStep(c: Config, step: Step, id: Id)
    requires CallOk(c) && CanTake(c, step) && id in c.status
    requires !(c.status[id].Reaped? || c.status[id].Absent?)
    requires var d := Take(c, step); id in d.status && (d.status[id].Reaped? || d.status[id].Absent?)
    ensures var d := Take(c, step); id !in d.s.mem && id !in d.s.disk
  {
    if step.Own? {
      OwnKill(c, step.l);
      if step.l.Finish? && step.l.ok { ReapedIsGone(c.s, step.l); }
      hide Next;
    } else {
      MemIsDisk(c.s);
    }
    hide Inv;
  }

  lemma MemIsDisk(s: State)
    requires Inv(s) && s.up
    ensures s.mem == s.disk
  {
  }

  /******* The call *******/

  /** Everything known about the losers after a run. */
  ghost predicate Told(c: Config, run: seq<Step>)
    requires Proper(c, run)
  {
    var d := Reach(c, run);
    && CallOk(d) && d.status.Keys == c.status.Keys
    && forall id | id in d.status ::
         && (d.status[id].Reaped? <==> OwnFinish(c, run, id))
         && (d.status[id].Reaped? || d.status[id].Absent? ==> WasAbsent(c, run, id))
  }

  lemma AbsentBefore(c: Config, run: seq<Step>, id: Id)
    requires run != [] && Proper(c, run) && WasAbsent(c, run[..|run| - 1], id)
    ensures WasAbsent(c, run, id)
  {
    var rest := run[..|run| - 1];
    var i :| 0 <= i <= |rest| && Proper(c, rest[..i]) && id !in Reach(c, rest[..i]).s.mem && id !in Reach(c, rest[..i]).s.disk;
    assert rest[..i] == run[..i];
  }

  lemma AbsentNow(c: Config, run: seq<Step>, id: Id)
    requires Proper(c, run) && id !in Reach(c, run).s.mem && id !in Reach(c, run).s.disk
    ensures WasAbsent(c, run, id)
  {
    assert run[..|run|] == run;
  }

  /** A finish of the longer run is one of the shorter run or the last step. */
  lemma FinishLast(c: Config, run: seq<Step>, id: Id)
    requires run != [] && Proper(c, run)
    ensures OwnFinish(c, run, id) <==> OwnFinish(c, run[..|run| - 1], id) || Finishes(c, run, |run| - 1, id)
  {
    hide Proper, Reach;
    var n := |run| - 1;
    var rest := run[..n];
    if i: nat :| i < |rest| && Finishes(c, rest, i, id) {
      assert rest[..i] == run[..i] && rest[i] == run[i];
      assert Finishes(c, run, i, id);
    }
    if i: nat :| i < |run| && Finishes(c, run, i, id) {
      if i < n {
        assert rest[..i] == run[..i] && rest[i] == run[i];
        assert Finishes(c, rest, i, id);
      }
    }
  }

  lemma ToldStep(c: Config, run: seq<Step>, id: Id)
    requires run != [] && Proper(c, run) && Told(c, run[..|run| - 1]) && id in c.status
    ensures var d := Reach(c, run);
            && id in d.status && (d.status[id].Reaped? <==> OwnFinish(c, run, id))
            && (d.status[id].Reaped? || d.status[id].Absent? ==> WasAbsent(c, run, id))
  {
    hide CallOk, CanTake, Take, WasAbsent, OwnFinish;
    var rest, step := run[..|run| - 1], run[|run| - 1];
    var b, d := Reach(c, rest), Reach(c, run);
    ReapedStep(b, step, id);
    FinishLast(c, run, id);
    if b.status[id].Reaped? || b.status[id].Absent? {
      AbsentBefore(c, run, id);
    } else if d.status[id].Reaped? || d.status[id].Absent? {
      DoneStep(b, step, id);
      AbsentNow(c, run, id);
    }
  }

  lemma {:induction false} Tell(c: Config, run: seq<Step>)
    requires CallOk(c) && Proper(c, run) && forall id | id in c.status :: c.status[id].Untried?
    ensures Told(c, run)
    decreases |run|
  {
    hide CallOk, CanTake, Take, WasAbsent;
    if run != [] {
      var rest, step := run[..|run| - 1], run[|run| - 1];
      Tell(c, rest);
      CallStep(Reach(c, rest), step);
      forall id | id in Reach(c, run).status
        ensures (Reach(c, run).status[id].Reaped? <==> OwnFinish(c, run, id))
        ensures Reach(c, run).status[id].Reaped? || Reach(c, run).status[id].Absent? ==> WasAbsent(c, run, id)
      {
        ToldStep(c, run, id);
      }
    }
  }

  /** `kill_losers` among other threads, on normal return: there is exactly one receipt per
      loser; it says reaped exactly if the call's own kill of that branch finished; and every
      loser was, at some moment of the call, recorded neither in memory nor on disk. */
  lemma LosersLeave(s: State, winner: Id, run: seq<Step>)
    requires Inv(s) && s.up && Proper(Entry(s, winner), run) && Returns(Reach(Entry(s, winner), run))
    ensures var c, d := Entry(s, winner), Reach(Entry(s, winner), run);
            && d.receipts.Keys == Orchestrator.Losers(s.mem, winner)
            && (forall id | id in d.receipts :: d.receipts[id] <==> OwnFinish(c, run, id))
            && (forall id | id in d.receipts :: WasAbsent(c, run, id))
  {
    hide Inv, WasAbsent, OwnFinish;
    var c := Entry(s, winner);
    Tell(c, run);
    var d := Reach(c, run);
    forall id | id in d.status ensures id in d.receipts && (d.receipts[id] <==> d.status[id].Reaped?) { assert LoserOk(d, id); }
  }

  /******* A receipt replaced *******/

  lemma OneMore(c: Config, run: seq<Step>, step: Step)
    requires Proper(c, run) && CanTake(Reach(c, run), step)
    ensures Proper(c, run + [step]) && Reach(c, run + [step]) == Take(Reach(c, run), step)
  {
    hide CanTake, Take;
    assert (run + [step])[..|run|] == run;
  }

  /** "x" is live while the thread that created it has yet to clear its mark. */
  ghost predicate Unwinding(c: Config) {
    && c.s.up && c.s.life.Open? && "x" in c.s.mem && "x" in c.s.spawning && "x" !in c.s.killing
    && c.s.ops == map[0 := Spawning("x", None, Unwind)] && c.status == map["x" := Untried] && c.receipts == map[]
  }

  /** The first kill finds the spawn in flight and is a no-op; the other thread finishes ... */
  lemma SweepSkips(c: Config) returns (run: seq<Step>)
    requires Unwinding(c)
    ensures run != [] && run[0] == Skip("x")
    ensures Proper(c, run) && var d := Reach(c, run);
            && d.s.up && d.s.life.Open? && d.s.ops == map[] && "x" in d.s.mem && "x" !in d.s.spawning && "x" !in d.s.killing
            && d.status == map["x" := Skipped] && d.receipts == map["x" := false]
  {
    hide Proper, Reach;
    RunsNothing(c);
    OneMore(c, [], Skip("x"));
    var b := Reach(c, [] + [Skip("x")]);
    assert !Mine(b, 0);
    OneMore(c, [] + [Skip("x")], Theirs(Finally(0)));
    run := [] + [Skip("x")] + [Theirs(Finally(0))];
  }

  lemma RunsNothing(c: Config)
    ensures Proper(c, []) && Reach(c, []) == c
  {
  }

  lemma RetryStarts(c: Config, run: seq<Step>) returns (more: seq<Step>)
    requires Proper(c, run)
    requires var d := Reach(c, run);
             && d.s.up && d.s.life.Open? && d.s.ops == map[] && "x" in d.s.mem && "x" !in d.s.spawning && "x" !in d.s.killing
             && d.status == map["x" := Skipped] && d.receipts == map["x" := false]
    ensures run <= more && Proper(c, more) && var d := Reach(c, more);
            && d.s.up && d.s.ops == map[1 := Reaping("x", ReapSandbox, false)] && "x" in d.s.mem
            && d.status == map["x" := Started(1)] && d.receipts == map["x" := false]
  {
    hide Proper, Reach;
    OneMore(c, run, Begin(1, "x", true));
    more := run + [Begin(1, "x", true)];
  }

  lemma RetryReaps(c: Config, run: seq<Step>, step: KillStep) returns (more: seq<Step>)
    requires Proper(c, run) && (step == ReapSandbox || step == ReapKv || step == ForgetRecord)
    requires var d := Reach(c, run);
             && d.s.up && d.s.ops == map[1 := Reaping("x", step, false)] && "x" in d.s.mem
             && d.status == map["x" := Started(1)] && d.receipts == map["x" := false]
    ensures run <= more && Proper(c, more) && Returns(Reach(c, more)) && Reach(c, more).receipts == map["x" := true]
    decreases if step == ReapSandbox then 2 else if step == ReapKv then 1 else 0
  {
    hide Proper, Reach;
    var d := Reach(c, run);
    assert "x" in d.status && Mine(d, 1);
    var l := if step == ReapSandbox then KillSandbox(1, true, true) else if step == ReapKv then KillKv(1, true, true) else Finish(1, true);
    OneMore(c, run, Own(l));
    more := run + [Own(l)];
    if step != ForgetRecord { more := RetryReaps(c, more, if step == ReapSandbox then ReapKv else ForgetRecord); }
  }

  /** ... and the settle loop's second kill replaces the no-op receipt. */
  lemma RetryReplaces(c: Config) returns (run: seq<Step>)
    requires Unwinding(c)
    ensures Proper(c, run) && run != [] && run[0] == Skip("x") && Returns(Reach(c, run)) && Reach(c, run).receipts == map["x" := true]
  {
    run := SweepSkips(c);
    run := RetryStarts(c, run);
    run := RetryReaps(c, run, ReapSandbox);
  }

  /******* Progress *******/

  /** A loser that was skipped never leaves the call stuck: it is gone, or it can be killed
      now, or somebody's operation on it is in flight and can go on. */
  lemma LoserMoves(c: Config, id: Id, op: nat)
    requires CallOk(c) && Settled(c) && c.s.life.Open? && id in c.status && c.status[id].Skipped? && op !in c.s.ops
    ensures CanTake(c, Look(id)) || CanTake(c, Begin(op, id, true))
            || exists a :: a in c.s.ops && c.s.ops[a].id == id && Enabled(c.s, Onward(c.s, a)) && Continues(Onward(c.s, a))
  {
    if id in c.s.mem && (id in c.s.killing || id in c.s.spawning) {
      var a := InFlightOp(c.s, id);
      assert Enabled(c.s, Onward(c.s, a));
    }
  }

  lemma InFlightOp(s: State, id: Id) returns (a: nat)
    requires Inv(s) && s.up && (id in s.killing || id in s.spawning)
    ensures a in s.ops && s.ops[a].id == id
  {
    hide Exclusive, OpsOk, Accounted, ClosingOk;
    if id in s.killing {
      a :| a in s.ops && s.ops[a].Reaping? && s.ops[a].id == id;
    } else {
      a :| a in s.ops && s.ops[a].Spawning? && s.ops[a].id == id;
    }
  }

  /** The label starts an operation numbered `a`. */
  predicate Starts(l: Label, a: nat) {
    ((l.Create? || l.Kill? || l.SweepKill?) && l.op == a) || (l.Fork? && a in l.spawns)
  }

  function StepsOf(run: seq<Label>, a: nat): (n: nat)
    decreases |run|
  {
    if run == [] then 0 else (if Continues(run[0]) && run[0].op == a then 1 else 0) + StepsOf(run[1..], a)
  }

  function Remaining(s: State, a: nat): (n: nat) {
    if a in s.ops then Left(s.ops[a]) else 0
  }

  lemma OneStepLess(s: State, l: Label, a: nat)
    requires s.up && Enabled(s, l) && !l.Crash? && !Starts(l, a)
    ensures Remaining(Next(s, l), a) + (if Continues(l) && l.op == a then 1 else 0) <= Remaining(s, a)
  {
    if a in s.ops && !(Continues(l) && l.op == a) { Untouched(s, l, a); }
  }

  /** Each wait ends: an operation in flight takes at most `Left` steps of its own, whatever
      fails and whatever else happens in between. */
  lemma {:induction false} WaitEnds(s: State, run: seq<Label>, a: nat)
    requires s.up && Takes(s, run) && forall l | l in run :: !l.Crash? && !Starts(l, a)
    ensures StepsOf(run, a) + Remaining(After(s, run), a) <= Remaining(s, a)
    decreases |run|
  {
    hide Enabled, Next, Remaining, Starts, Continues;
    if run != [] {
      OneStepLess(s, run[0], a);
      UpStays(s, run[0]);
      WaitEnds(Next(s, run[0]), run[1..], a);
    }
  }
}
