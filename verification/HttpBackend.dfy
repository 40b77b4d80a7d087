/**
The in-flight and closing bookkeeping of `agentfork/kv/sglang_http_backend.py` as a
state machine over the regions under its condition variable.  Requests run between
the regions, any number at once, and may fail.
*/
module HttpBackend {
  import opened Common

  type Id = string

  /** A call in progress.  `Linking` is a fork whose request has returned but whose child
      is not yet entered; `Reaping` is a kill that has stopped waiting. */
  datatype Call =
    | Generating(branch: Id)
    | Forking(branch: Id, child: Id, namespace: Id)
    | Linking(parent: Id, child: Id, namespace: Id)
    | Draining(victim: Id)
    | Reaping(victim: Id)

  datatype State = State(
    active: map<Id, nat>,
    closing: set<Id>,
    namespaces: map<Id, Id>,
    parents: map<Id, Option<Id>>,
    calls: map<nat, Call>)

  const INITIAL := State(map[], {}, map[], map[], map[])

  datatype Label =
    | Create(id: Id)
    | GenerateStart(call: nat, id: Id)
    | GenerateEnd(call: nat)
    | ForkStart(call: nat, parent: Id, child: Id)
    | ForkFails(call: nat)
    | ForkReturns(call: nat)
    | ForkLinks(call: nat)
    | KillMarks(call: nat, id: Id)
    | KillTimesOut(call: nat)
    | KillProceeds(call: nat)
    | KillForgets(call: nat)
    | KillEnds(call: nat)

  function Active(s: State, b: Id): nat {
    if b in s.active then s.active[b] else 0
  }

  predicate Enabled(s: State, l: Label) {
    match l
    case Create(_) => true
    case GenerateStart(c, id) => c !in s.calls && id !in s.closing && id in s.namespaces
    case GenerateEnd(c) => c in s.calls && s.calls[c].Generating?
    case ForkStart(c, p, _) => c !in s.calls && p !in s.closing && p in s.namespaces
    case ForkFails(c) => c in s.calls && s.calls[c].Forking?
    case ForkReturns(c) => c in s.calls && s.calls[c].Forking?
    case ForkLinks(c) => c in s.calls && s.calls[c].Linking?
    case KillMarks(c, id) => c !in s.calls && id !in s.closing
    case KillTimesOut(c) => c in s.calls && s.calls[c].Draining? && Active(s, s.calls[c].victim) > 0
    case KillProceeds(c) => c in s.calls && s.calls[c].Draining? && Active(s, s.calls[c].victim) == 0
    case KillForgets(c) => c in s.calls && s.calls[c].Reaping?
    case KillEnds(c) => c in s.calls && s.calls[c].Reaping?
  }

  /** One request less on `b`; the last one drops the entry. */
  function Fewer(active: map<Id, nat>, b: Id): map<Id, nat> {
    if b in active && active[b] > 1 then active[b := active[b] - 1] else active - {b}
  }

  function Next(s: State, l: Label): State
    requires Enabled(s, l)
  {
    match l
    case Create(id) => s.(namespaces := s.namespaces[id := id], parents := s.parents[id := None])
    case GenerateStart(c, id) => s.(active := s.active[id := Active(s, id) + 1], calls := s.calls[c := Generating(id)])
    case GenerateEnd(c) => s.(active := Fewer(s.active, s.calls[c].branch), calls := s.calls - {c})
    case ForkStart(c, p, child) =>
      s.(active := s.active[p := Active(s, p) + 1], calls := s.calls[c := Forking(p, child, s.namespaces[p])])
    case ForkFails(c) => s.(active := Fewer(s.active, s.calls[c].branch), calls := s.calls - {c})
    case ForkReturns(c) =>
      s.(active := Fewer(s.active, s.calls[c].branch),
         calls := s.calls[c := Linking(s.calls[c].branch, s.calls[c].child, s.calls[c].namespace)])
    case ForkLinks(c) =>
      s.(namespaces := s.namespaces[s.calls[c].child := s.calls[c].namespace],
         parents := s.parents[s.calls[c].child := Some(s.calls[c].parent)], calls := s.calls - {c})
    case KillMarks(c, id) => s.(closing := s.closing + {id}, calls := s.calls[c := Draining(id)])
    case KillTimesOut(c) => s.(closing := s.closing - {s.calls[c].victim}, calls := s.calls - {c})
    case KillProceeds(c) => s.(calls := s.calls[c := Reaping(s.calls[c].victim)])
    case KillForgets(c) =>
      s.(namespaces := s.namespaces - {s.calls[c].victim}, parents := s.parents - {s.calls[c].victim})
    case KillEnds(c) => s.(closing := s.closing - {s.calls[c].victim}, calls := s.calls - {c})
  }

  /******* Invariant *******/

  /** The branch a request in flight counts against. */
  function Uses(c: Call): Option<Id> {
    if c.Generating? || c.Forking? then Some(c.branch) else None
  }

  /** The branch a kill has marked. */
  function Marks(c: Call): Option<Id> {
    if c.Draining? || c.Reaping? then Some(c.victim) else None
  }

  ghost function UsersOf(calls: map<nat, Call>, b: Id): set<nat> {
    set c | c in calls && Uses(calls[c]) == Some(b)
  }

  /** `_active` is the number of requests in flight, without zero entries. */
  ghost predicate Counts(s: State) {
    && (forall b :: Active(s, b) == |UsersOf(s.calls, b)|)
    && (forall b | b in s.active :: s.active[b] > 0)
  }

  /** Each closing mark belongs to exactly one kill. */
  ghost predicate Marked(s: State) {
    && (forall c | c in s.calls && Marks(s.calls[c]).Some? :: Marks(s.calls[c]).value in s.closing)
    && (forall a, c {:trigger s.calls[a], s.calls[c]} |
          a in s.calls && c in s.calls && Marks(s.calls[a]).Some? && Marks(s.calls[a]) == Marks(s.calls[c]) :: a == c)
    && (forall b | b in s.closing :: exists c :: c in s.calls && Marks(s.calls[c]) == Some(b))
  }

  /** A kill that has stopped waiting is alone with its branch. */
  ghost predicate Quiet(s: State) {
    forall c | c in s.calls && s.calls[c].Reaping? :: Active(s, s.calls[c].victim) == 0
  }

  ghost predicate Tracked(s: State) {
    s.parents.Keys == s.namespaces.Keys
  }

  ghost predicate Inv(s: State) {
    Counts(s) && Marked(s) && Quiet(s) && Tracked(s)
  }

  lemma InitialInv()
    ensures Inv(INITIAL)
  {
    assert forall b :: UsersOf(map[], b) == {};
  }

  /******* Preservation *******/

  function Share(calls: map<nat, Call>, c: nat, b: Id): nat {
    if c in calls && Uses(calls[c]) == Some(b) then 1 else 0
  }

  lemma UsersWithout(calls: map<nat, Call>, c: nat, b: Id)
    ensures |UsersOf(calls - {c}, b)| == |UsersOf(calls, b)| - Share(calls, c, b)
  {
    if Share(calls, c, b) == 1 {
      assert UsersOf(calls, b) == UsersOf(calls - {c}, b) + {c};
    } else {
      assert UsersOf(calls, b) == UsersOf(calls - {c}, b);
    }
  }

  /** Only call `c` moved. */
  ghost predicate Moved(s: State, t: State, c: nat) {
    forall a | a != c :: (a in t.calls <==> a in s.calls) && (a in s.calls ==> t.calls[a] == s.calls[a])
  }

  lemma CountsFrame(s: State, t: State, c: nat)
    requires Counts(s) && Moved(s, t, c)
    requires forall b :: Active(t, b) == Active(s, b) - Share(s.calls, c, b) + Share(t.calls, c, b)
    requires forall b | b in t.active :: t.active[b] > 0
    ensures Counts(t)
  {
    forall b ensures Active(t, b) == |UsersOf(t.calls, b)| {
      assert Active(s, b) == |UsersOf(s.calls, b)|;
      UsersWithout(s.calls, c, b);
      UsersWithout(t.calls, c, b);
      assert UsersOf(s.calls - {c}, b) == UsersOf(t.calls - {c}, b);
    }
  }

  /** A request in flight is counted. */
  lemma Counted(s: State, c: nat)
    requires Counts(s) && c in s.calls && Uses(s.calls[c]).Some?
    ensures Active(s, Uses(s.calls[c]).value) >= 1
  {
    assert c in UsersOf(s.calls, Uses(s.calls[c]).value);
  }

  lemma MovesOne(s: State, l: Label)
    requires Enabled(s, l) && !l.Create?
    ensures Moved(s, Next(s, l), l.call)
  {
  }

  lemma ActiveStep(s: State, l: Label)
    requires Counts(s) && Enabled(s, l) && !l.Create?
    ensures var t := Next(s, l);
            && (forall b :: Active(t, b) == Active(s, b) - Share(s.calls, l.call, b) + Share(t.calls, l.call, b))
            && (forall b | b in t.active :: t.active[b] > 0)
  {
    if l.call in s.calls && Uses(s.calls[l.call]).Some? { Counted(s, l.call); }
    assert forall b | b in s.active :: s.active[b] > 0;
    hide Counts;
  }

  lemma CountsStep(s: State, l: Label)
    requires Inv(s) && Enabled(s, l)
    ensures Counts(Next(s, l))
  {
    hide Marked, Quiet;
    if l.Create? {
      var t := Next(s, l);
      forall b ensures Active(t, b) == |UsersOf(t.calls, b)| { assert Active(s, b) == |UsersOf(s.calls, b)|; }
    } else {
      ActiveStep(s, l);
      MovesOne(s, l);
      hide Next, Counts;
      CountsFrame(s, Next(s, l), l.call);
    }
  }

  function MarkOf(s: State, c: nat): Option<Id> {
    if c in s.calls then Marks(s.calls[c]) else None
  }

  lemma MarkedFrame(s: State, t: State, c: nat)
    requires Marked(s) && Moved(s, t, c)
    requires MarkOf(s, c) == MarkOf(t, c) || MarkOf(s, c).None? || MarkOf(t, c).None?
    requires t.closing == if MarkOf(s, c) == MarkOf(t, c) then s.closing
                          else if MarkOf(t, c).Some? then s.closing + {MarkOf(t, c).value} else s.closing - {MarkOf(s, c).value}
    requires MarkOf(s, c).None? && MarkOf(t, c).Some? ==> MarkOf(t, c).value !in s.closing
    ensures Marked(t)
  {
    forall a | a in t.calls && Marks(t.calls[a]).Some? ensures Marks(t.calls[a]).value in t.closing {
      if a != c { assert s.calls[a] == t.calls[a]; }
      if a != c && MarkOf(s, c).Some? { assert Marks(s.calls[a]) != Marks(s.calls[c]); }
    }
    forall b | b in t.closing ensures exists a :: a in t.calls && Marks(t.calls[a]) == Some(b) {
      if MarkOf(t, c) == Some(b) {
        assert c in t.calls;
      } else {
        var a :| a in s.calls && Marks(s.calls[a]) == Some(b);
        assert a != c && a in t.calls && t.calls[a] == s.calls[a];
      }
    }
  }

  lemma MarkedSame(s: State, t: State)
    requires Marked(s) && t.calls == s.calls && t.closing == s.closing
    ensures Marked(t)
  {
  }

  lemma MarkedStep(s: State, l: Label)
    requires Inv(s) && Enabled(s, l)
    ensures Marked(Next(s, l))
  {
    hide Counts, Quiet, Marked;
    if l.Create? {
      MarkedSame(s, Next(s, l));
    } else {
      MovesOne(s, l);
      hide Moved;
      MarkedFrame(s, Next(s, l), l.call);
    }
  }

  lemma QuietStep(s: State, l: Label)
    requires Inv(s) && Enabled(s, l)
    ensures Quiet(Next(s, l))
  {
    var t := Next(s, l);
    if !l.Create? { ActiveStep(s, l); MovesOne(s, l); }
    hide Counts;
    forall c | c in t.calls && t.calls[c].Reaping? ensures Active(t, t.calls[c].victim) == 0 {
      if !l.Create? && c != l.call {
        assert t.calls[c] == s.calls[c];
        assert s.calls[c].victim in s.closing;
      }
    }
  }

  lemma StepInv(s: State, l: Label)
    requires Inv(s) && Enabled(s, l)
    ensures Inv(Next(s, l))
  {
    CountsStep(s, l);
    MarkedStep(s, l);
    QuietStep(s, l);
    hide Counts, Marked, Quiet;
  }

  /******* Runs *******/

  predicate Legal(s: State, run: seq<Label>)
    decreases |run|
  {
    run == [] || (Enabled(s, run[0]) && Legal(Next(s, run[0]), run[1..]))
  }

  function After(s: State, run: seq<Label>): State
    requires Legal(s, run)
    decreases |run|
  {
    if run == [] then s else After(Next(s, run[0]), run[1..])
  }

  lemma {:induction false} RunInv(s: State, run: seq<Label>)
    requires Inv(s) && Legal(s, run)
    ensures Inv(After(s, run))
    decreases |run|
  {
    hide Inv, Enabled, Next;
    if run != [] {
      StepInv(s, run[0]);
      RunInv(Next(s, run[0]), run[1..]);
    }
  }

  /** From the moment a kill stops waiting until it drops its mark, the branch is its own:
      no generate, no fork from it, no second kill. */
  lemma KillAlone(run: seq<Label>, k: nat, c: nat)
    requires Legal(INITIAL, run)
    ensures var s := After(INITIAL, run);
            k in s.calls && s.calls[k].Reaping? && c in s.calls && c != k ==>
              Uses(s.calls[c]) != Some(s.calls[k].victim) && Marks(s.calls[c]) != Some(s.calls[k].victim)
  {
    InitialInv();
    RunInv(INITIAL, run);
    var s := After(INITIAL, run);
    if k in s.calls && s.calls[k].Reaping? && c in s.calls && c != k { Alone(s, k, c); }
  }

  lemma Alone(s: State, k: nat, c: nat)
    requires Inv(s) && k in s.calls && s.calls[k].Reaping? && c in s.calls && c != k
    ensures Uses(s.calls[c]) != Some(s.calls[k].victim) && Marks(s.calls[c]) != Some(s.calls[k].victim)
  {
    if Uses(s.calls[c]).Some? { Counted(s, c); }
  }

  /** The kill `k` drops its mark. */
  predicate Unmarks(l: Label, k: nat) {
    (l.KillTimesOut? || l.KillEnds?) && l.call == k
  }

  lemma MarkStays(s: State, l: Label, k: nat, b: Id)
    requires Inv(s) && Enabled(s, l) && MarkOf(s, k) == Some(b) && !Unmarks(l, k)
    ensures MarkOf(Next(s, l), k) == Some(b) && UsersOf(Next(s, l).calls, b) <= UsersOf(s.calls, b)
  {
    assert b in s.closing;
  }

  /** While a kill's mark stands, the requests on its branch only become fewer. */
  lemma {:induction false} MarkedRefuses(s: State, run: seq<Label>, k: nat, b: Id)
    requires Inv(s) && Legal(s, run) && MarkOf(s, k) == Some(b) && forall l | l in run :: !Unmarks(l, k)
    ensures MarkOf(After(s, run), k) == Some(b) && UsersOf(After(s, run).calls, b) <= UsersOf(s.calls, b)
    decreases |run|
  {
    hide Inv, Enabled, Next, UsersOf, Unmarks;
    if run != [] {
      StepInv(s, run[0]);
      MarkStays(s, run[0], k, b);
      MarkedRefuses(Next(s, run[0]), run[1..], k, b);
    }
  }

  /** What may still be in progress beside a reaping kill: a fork whose request has returned
      and whose child is about to be entered under the dying parent. */
  lemma LinkingBesideKill()
    ensures var run := [Create("p"), ForkStart(0, "p", "c"), ForkReturns(0), KillMarks(1, "p"), KillProceeds(1)];
            && Legal(INITIAL, run)
            && After(INITIAL, run).calls == map[0 := Linking("p", "c", "p"), 1 := Reaping("p")]
  {
    var run := [Create("p"), ForkStart(0, "p", "c"), ForkReturns(0), KillMarks(1, "p"), KillProceeds(1)];
    var s1 := Next(INITIAL, run[0]);
    var s2 := Next(s1, run[1]);
    assert s2.calls == map[0 := Forking("p", "c", "p")];
    var s3 := Next(s2, run[2]);
    assert s3.calls == map[0 := Linking("p", "c", "p")];
    var s4 := Next(s3, run[3]);
    assert s4.calls == map[0 := Linking("p", "c", "p"), 1 := Draining("p")];
    assert run[1..][1..] == run[2..] && run[2..][1..] == run[3..] && run[3..][1..] == run[4..] && run[4..][1..] == [];
    assert Legal(s4, run[4..]) && Legal(s3, run[3..]) && Legal(s2, run[2..]) && Legal(s1, run[1..]);
  }

  /** `_active` is the number of requests in flight, in every run. */
  lemma ActiveExact(run: seq<Label>, b: Id)
    requires Legal(INITIAL, run)
    ensures var s := After(INITIAL, run);
            Active(s, b) == |UsersOf(s.calls, b)| && (b in s.active <==> UsersOf(s.calls, b) != {})
  {
    InitialInv();
    RunInv(INITIAL, run);
  }

  /******* Namespaces *******/

  /** `c` is still the fork of `child` from `p` that read namespace `ns`. */
  predicate InFork(s: State, c: nat, p: Id, child: Id, ns: Id) {
    c in s.calls && (s.calls[c] == Forking(p, child, ns) || s.calls[c] == Linking(p, child, ns))
  }

  /** The fork `c` ends. */
  predicate EndsFork(l: Label, c: nat) {
    (l.ForkFails? || l.ForkLinks?) && l.call == c
  }

  lemma InForkStays(s: State, l: Label, c: nat, p: Id, child: Id, ns: Id)
    requires Enabled(s, l) && InFork(s, c, p, child, ns) && !EndsFork(l, c)
    ensures InFork(Next(s, l), c, p, child, ns)
  {
    if !l.Create? { MovesOne(s, l); }
  }

  lemma {:induction false} StaysInFork(s: State, run: seq<Label>, c: nat, p: Id, child: Id, ns: Id)
    requires Legal(s, run) && InFork(s, c, p, child, ns) && forall l | l in run :: !EndsFork(l, c)
    ensures InFork(After(s, run), c, p, child, ns)
    decreases |run|
  {
    hide Enabled, Next, InFork, EndsFork;
    if run != [] {
      InForkStays(s, run[0], c, p, child, ns);
      StaysInFork(Next(s, run[0]), run[1..], c, p, child, ns);
    }
  }

  /** Whatever happens while a fork's request is out, the parent's death and re-creation
      included: the child gets the namespace the parent had when the fork began, and is
      entered under that parent. */
  lemma ForkInherits(s: State, c: nat, p: Id, child: Id, run: seq<Label>)
    requires Enabled(s, ForkStart(c, p, child)) && Legal(Next(s, ForkStart(c, p, child)), run)
    requires forall l | l in run :: !EndsFork(l, c)
    ensures var t := After(Next(s, ForkStart(c, p, child)), run);
            Enabled(t, ForkLinks(c)) ==>
              && Next(t, ForkLinks(c)).namespaces == t.namespaces[child := s.namespaces[p]]
              && Next(t, ForkLinks(c)).parents == t.parents[child := Some(p)]
              && Next(t, ForkLinks(c)).active == t.active
  {
    StaysInFork(Next(s, ForkStart(c, p, child)), run, c, p, child, s.namespaces[p]);
  }

  /** Namespaces in use, or about to be, are among `roots`. */
  ghost predicate RootedIn(s: State, roots: set<Id>) {
    && (forall b | b in s.namespaces :: s.namespaces[b] in roots)
    && (forall c | c in s.calls && (s.calls[c].Forking? || s.calls[c].Linking?) :: s.calls[c].namespace in roots)
  }

  function Created(run: seq<Label>): set<Id> {
    set l | l in run && l.Create? :: l.id
  }

  lemma RootedStep(s: State, l: Label, roots: set<Id>)
    requires RootedIn(s, roots) && Enabled(s, l) && (l.Create? ==> l.id in roots)
    ensures RootedIn(Next(s, l), roots)
  {
    var t := Next(s, l);
    forall b | b in t.namespaces ensures t.namespaces[b] in roots {
      if l.ForkLinks? { assert s.calls[l.call].namespace in roots; }
    }
    forall c | c in t.calls && (t.calls[c].Forking? || t.calls[c].Linking?) ensures t.calls[c].namespace in roots {
      if !l.Create? && c != l.call { assert t.calls[c] == s.calls[c]; }
    }
  }

  lemma {:induction false} RootedRun(s: State, run: seq<Label>, roots: set<Id>)
    requires RootedIn(s, roots) && Legal(s, run) && Created(run) <= roots
    ensures RootedIn(After(s, run), roots)
    decreases |run|
  {
    hide Enabled, Next, RootedIn;
    if run != [] {
      assert run[0].Create? ==> run[0].id in Created(run);
      RootedStep(s, run[0], roots);
      assert Created(run[1..]) <= Created(run);
      RootedRun(Next(s, run[0]), run[1..], roots);
    }
  }

  /** In every run the namespace of every branch is that of a tree that was created. */
  lemma NamespacesCreated(run: seq<Label>, b: Id)
    requires Legal(INITIAL, run)
    ensures b in After(INITIAL, run).namespaces ==> Create(After(INITIAL, run).namespaces[b]) in run
  {
    RootedRun(INITIAL, run, Created(run));
  }

  /** A branch without parent is a tree of its own name. */
  ghost predicate OwnName(s: State) {
    forall b | b in s.parents && s.parents[b].None? :: b in s.namespaces && s.namespaces[b] == b
  }

  lemma OwnNameStep(s: State, l: Label)
    requires OwnName(s) && Enabled(s, l)
    ensures OwnName(Next(s, l))
    ensures l.Create? ==> l.id in Next(s, l).parents && Next(s, l).parents[l.id].None?
  {
  }

  lemma {:induction false} OwnNameRun(s: State, run: seq<Label>)
    requires OwnName(s) && Legal(s, run)
    ensures OwnName(After(s, run))
    decreases |run|
  {
    hide Enabled, Next, OwnName;
    if run != [] {
      OwnNameStep(s, run[0]);
      OwnNameRun(Next(s, run[0]), run[1..]);
    }
  }

  /** In every run a branch without parent, as creating it makes it, has its own namespace. */
  lemma RootsOwnNamespace(run: seq<Label>, b: Id)
    requires Legal(INITIAL, run)
    ensures var s := After(INITIAL, run);
            && (b in s.parents && s.parents[b].None? ==> b in s.namespaces && s.namespaces[b] == b)
            && Enabled(s, Create(b)) && b in Next(s, Create(b)).parents && Next(s, Create(b)).parents[b].None?
  {
    OwnNameRun(INITIAL, run);
    OwnNameStep(After(INITIAL, run), Create(b));
  }

  /******* Completion *******/

  lemma Cons(s: State, l: Label, run: seq<Label>)
    requires Enabled(s, l) && Legal(Next(s, l), run)
    ensures Legal(s, [l] + run) && After(s, [l] + run) == After(Next(s, l), run)
  {
    assert ([l] + run)[1..] == run;
  }

  /** A request on an open branch can go through, and leaves nothing behind. */
  lemma GenerateCompletes(s: State, c: nat, b: Id)
    requires Inv(s) && c !in s.calls
    ensures Enabled(s, GenerateStart(c, b)) <==> b in s.namespaces && b !in s.closing
    ensures Enabled(s, GenerateStart(c, b)) ==>
              Legal(s, [GenerateStart(c, b)] + [GenerateEnd(c)]) && After(s, [GenerateStart(c, b)] + [GenerateEnd(c)]) == s
  {
    hide Marked, Quiet;
    if Enabled(s, GenerateStart(c, b)) {
      var t := Next(s, GenerateStart(c, b));
      assert Fewer(t.active, b) == s.active && t.calls - {c} == s.calls;
      Cons(t, GenerateEnd(c), []);
      Cons(s, GenerateStart(c, b), [GenerateEnd(c)]);
    }
  }

  /** A fork of an open branch can go through; all it leaves is the child. */
  lemma ForkCompletes(s: State, c: nat, p: Id, child: Id)
    requires Inv(s) && c !in s.calls
    ensures Enabled(s, ForkStart(c, p, child)) <==> p in s.namespaces && p !in s.closing
    ensures Enabled(s, ForkStart(c, p, child)) ==>
              var run := [ForkStart(c, p, child)] + ([ForkReturns(c)] + [ForkLinks(c)]);
              Legal(s, run) && After(s, run) == s.(namespaces := s.namespaces[child := s.namespaces[p]], parents := s.parents[child := Some(p)])
  {
    hide Marked, Quiet;
    if Enabled(s, ForkStart(c, p, child)) {
      var t := Next(s, ForkStart(c, p, child));
      var u := Next(t, ForkReturns(c));
      assert Fewer(t.active, p) == s.active && u.calls - {c} == s.calls;
      Cons(u, ForkLinks(c), []);
      Cons(t, ForkReturns(c), [ForkLinks(c)]);
      Cons(s, ForkStart(c, p, child), [ForkReturns(c)] + [ForkLinks(c)]);
    }
  }

  /** A kill of a branch without requests can go through, and takes exactly the branch. */
  lemma KillCompletes(s: State, c: nat, b: Id)
    requires Inv(s) && c !in s.calls && b !in s.closing && UsersOf(s.calls, b) == {}
    ensures var run := [KillMarks(c, b)] + ([KillProceeds(c)] + ([KillForgets(c)] + [KillEnds(c)]));
            Legal(s, run) && After(s, run) == s.(namespaces := s.namespaces - {b}, parents := s.parents - {b})
  {
    hide Marked, Quiet;
    assert Active(s, b) == 0;
    var t := Next(s, KillMarks(c, b));
    var u := Next(t, KillProceeds(c));
    var v := Next(u, KillForgets(c));
    assert v.closing - {b} == s.closing && v.calls - {c} == s.calls;
    Cons(v, KillEnds(c), []);
    Cons(u, KillForgets(c), [KillEnds(c)]);
    Cons(t, KillProceeds(c), [KillForgets(c)] + [KillEnds(c)]);
    Cons(s, KillMarks(c, b), [KillProceeds(c)] + ([KillForgets(c)] + [KillEnds(c)]));
  }

  /** Every call can end, whatever the others do. */
  lemma NeverStuck(s: State, c: nat) returns (l: Label)
    requires c in s.calls
    ensures Enabled(s, l) && !l.Create? && l.call == c
    ensures c !in Next(s, l).calls || (s.calls[c].Draining? && Next(s, l).calls[c].Reaping?)
  {
    match s.calls[c]
    case Generating(_) => l := GenerateEnd(c);
    case Forking(_, _, _) => l := ForkFails(c);
    case Linking(_, _, _) => l := ForkLinks(c);
    case Draining(v) => l := if Active(s, v) > 0 then KillTimesOut(c) else KillProceeds(c);
    case Reaping(_) => l := KillEnds(c);
  }
}
