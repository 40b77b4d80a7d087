/** What a lease promises: the branch survives every collection before it lapses and none after. */
module LeaseLaws {
  import opened Common
  import opened Protocol
  import opened TreeCache
  import opened Orchestrator
  import PinnedWalks
  import BranchTrie

  /** Every collection of `passes` comes before `end`. */
  predicate AllBefore(passes: seq<int>, end: int) {
    forall i | 0 <= i < |passes| :: passes[i] < end
  }

  /** A branch made by this process, live, with a lease that lapses at `end`. */
  predicate Leased(s: State, id: Id, end: int) {
    id in s.mem && s.mem[id].phase == Live && id !in s.loaded && s.mem[id].lease == Some(end)
  }

  /** `reconcile` or `reap_expired` at the given times: as long as no call raises,
      the branch is there exactly if all of them came before its lease lapsed. */
  method Collect(o: ForkOrchestrator, id: Id, end: int, passes: seq<int>, reap: bool)
    requires o.Valid() && o.s.life.Open? && Leased(o.s, id, end)
    modifies o`s, o`trace, o`tried, o.kv, o.world
    ensures o.Valid() && o.world.raised >= old(o.world.raised)
    ensures o.world.raised == old(o.world.raised) ==>
              if AllBefore(passes, end) then Leased(o.s, id, end) else id !in o.s.mem
  {
    hide ForkOrchestrator.Valid, OneReceiptEach, TriedOnce;
    var i := 0;
    while i < |passes|
      invariant 0 <= i <= |passes| && o.Valid() && o.world.raised >= old(o.world.raised)
      invariant o.world.raised == old(o.world.raised) ==>
                  o.s.life.Open? && if AllBefore(passes[..i], end) then Leased(o.s, id, end) else id !in o.s.mem
    {
      assert AllBefore(passes[..i + 1], end) <==> AllBefore(passes[..i], end) && passes[i] < end;
      if reap {
        var r := o.ReapExpired(passes[i]);
      } else {
        var r := o.Reconcile(passes[i]);
      }
      i := i + 1;
    }
    assert passes[..i] == passes;
  }

  /** A lease of `d` given to a live branch at time `n` lasts until `n + d` and no longer. */
  method RenewedLasts(o: ForkOrchestrator, id: Id, d: int, n: int, passes: seq<int>, reap: bool)
    requires o.Valid() && o.s.life.Open? && LiveRecord(o.s, id) && id !in o.s.loaded && d > 0
    modifies o`s, o`trace, o`tried, o.kv, o.world
    ensures o.Valid() && o.world.raised >= old(o.world.raised)
    ensures o.world.raised == old(o.world.raised) ==> (id in o.s.mem <==> forall i | 0 <= i < |passes| :: passes[i] < n + d)
  {
    hide ForkOrchestrator.Valid;
    var r := o.RenewLease(id, d, n);
    if r.Ok? {
      Collect(o, id, n + d, passes, reap);
    }
  }

  /** So does a lease given at creation, be it the caller's or the default. */
  method CreatedLasts(o: ForkOrchestrator, id: Id, lease: Option<int>, n: int, passes: seq<int>, reap: bool)
    requires o.Valid() && o.s.life.Open? && id !in o.s.mem && !PinnedWalks.Clobbers(o.kv.live, id)
    requires if lease.Some? then lease.value > 0 else o.defaultLease.Some?
    modifies o`s, o`trace, o`tried, o.kv, o.world
    ensures o.Valid() && o.world.raised >= old(o.world.raised)
    ensures o.world.raised == old(o.world.raised) ==>
              var d := if lease.Some? then lease.value else o.defaultLease.value;
              id in o.s.mem <==> forall i | 0 <= i < |passes| :: passes[i] < n + d
  {
    hide ForkOrchestrator.Valid, Admits, BranchTrie.Cached, PinnedWalks.Clobbers;
    o.LoadedRecorded();
    var r := o.CreateParent(id, [], lease, n);
    if r.Ok? {
      Collect(o, id, r.value.lease.value, passes, reap);
    }
  }
}
