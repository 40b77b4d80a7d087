/** The recycling /30 allocator of `agentfork/sandbox/netns.py`. */
module Netns {
  import opened Common

  /** Addresses of an IPv4 subnet: aligned base and size, as `ip_network` demands. */
  datatype Subnet = Subnet(base: nat, size: nat)

  /** `a` is one of the addresses of the `index`th /30. */
  predicate InBlock(net: Subnet, index: int, a: int) {
    net.base + 4 * index <= a < net.base + 4 * index + 4
  }

  /** All four addresses of the `index`th /30 are in the subnet. */
  predicate WholeBlock(net: Subnet, index: nat)
    ensures WholeBlock(net, index) <==> forall a | InBlock(net, index, a) :: net.base <= a < net.base + net.size
  {
    assert InBlock(net, index, net.base + 4 * index + 3);
    net.base + 4 * index + 4 <= net.base + net.size
  }

  /** The two usable addresses of a /30: host side and namespace side. */
  function VethPair(net: Subnet, index: nat): (pair: (int, int))
    ensures InBlock(net, index, pair.0 - 1) && pair.0 < pair.1 && InBlock(net, index, pair.1 + 1)
  {
    (net.base + 4 * index + 1, net.base + 4 * index + 2)
  }

  /** Different indices below the capacity are disjoint blocks inside the subnet: an address
      is in the block that its distance from the base says. */
  lemma BlocksDisjoint(net: Subnet, i: int, j: int, a: int)
    requires 0 <= i < net.size / 4 && 0 <= j < net.size / 4 && InBlock(net, i, a)
    ensures net.base <= a < net.base + net.size
    ensures i == (a - net.base) / 4 && (InBlock(net, j, a) ==> i == j)
  {
  }

  predicate Unique(free: seq<int>) {
    forall i, j | 0 <= i < j < |free| :: free[i] != free[j]
  }

  lemma Without(free: seq<int>, k: nat)
    requires Unique(free) && k < |free|
    ensures Unique(free[..k] + free[k + 1..])
    ensures forall i :: i in free[..k] + free[k + 1..] <==> i in free && i != free[k]
  {
    var rest := free[..k] + free[k + 1..];
    forall i ensures i in rest <==> i in free && i != free[k] {
      if i in free && i != free[k] {
        var j :| 0 <= j < |free| && free[j] == i;
        assert rest[if j < k then j else j - 1] == i;
      }
      if j :| 0 <= j < |rest| && rest[j] == i { assert free[if j < k then j else j + 1] == i; }
    }
  }

  class NetnsManager {
    const net: Subnet
    var free: seq<int>
    var next: int

    /** How many whole /30s fit. */
    function Capacity(): (n: nat)
      ensures 4 * n <= net.size < 4 * n + 4
    {
      net.size / 4
    }

    /** Every index handed out and not given back. */
    ghost function Held(): (held: set<int>)
      reads this
    {
      set i | 0 <= i < next && i !in free
    }

    /** The free list holds indices once, all below the cursor, and the cursor is within the subnet. */
    ghost predicate Valid()
      reads this
    {
      && 0 <= next <= Capacity() && Unique(free)
      && forall i | i in free :: 0 <= i < next
    }

    /** Whatever is held: its four addresses are in the subnet and in no other held block. */
    lemma HeldBlocks(i: int, a: int)
      requires Valid() && i in Held() && InBlock(net, i, a)
      ensures net.base <= a < net.base + net.size
      ensures forall j | j in Held() && j != i :: !InBlock(net, j, a)
    {
      forall j | j in Held() && j != i ensures !InBlock(net, j, a) { BlocksDisjoint(net, i, j, a); }
    }

    constructor (net: Subnet)
      ensures Valid() && this.net == net && Held() == {}
    {
      this.net, free, next := net, [], 0;
    }

    /** `_allocate`: a block nobody holds, of four addresses within the subnet and outside every
        held block; or exhaustion, exactly when every whole /30 of the subnet is held. */
    method Allocate() returns (r: Outcome<int>)
      requires Valid()
      modifies this
      ensures Valid()
      ensures r.Ok? || r == RuntimeError
      ensures r.Ok? ==> r.value !in old(Held()) && Held() == old(Held()) + {r.value}
      ensures r.Ok? ==> net.base <= net.base + 4 * r.value && net.base + 4 * r.value + 4 <= net.base + net.size
      ensures r.Ok? ==> forall a | InBlock(net, r.value, a) ::
                          net.base <= a < net.base + net.size && forall i | i in old(Held()) :: !InBlock(net, i, a)
      ensures r == RuntimeError <==> forall i: nat | WholeBlock(net, i) :: i in old(Held())
      ensures !r.Ok? ==> unchanged(this)
    {
      if free != [] {
        var index := free[|free| - 1];
        ghost var was := free;
        assert index in was && index !in Held();
        free := free[..|free| - 1];
        assert was == free + [index];
        assert forall i | i in free :: i in was;
        return Ok(index);
      }
      if next >= Capacity() {
        return RuntimeError;
      }
      assert next !in Held();
      next := next + 1;
      return Ok(next - 1);
    }

    /** `release`: sound exactly for indices that were handed out at some time. */
    method Release(index: int)
      requires Valid()
      modifies this
      ensures Valid() <==> 0 <= index < old(next)
      ensures Held() == old(Held()) - {index} && next == old(next)
    {
      if index !in free {
        ghost var was := free;
        free := free + [index];
        assert index in free && forall i | i in was :: i in free;
      }
    }

    /** `reserve`: the index is held afterwards; the invariant survives exactly if it is within the subnet. */
    method Reserve(index: int) returns (r: Outcome<()>)
      requires Valid()
      modifies this
      ensures index < 0 ==> r == ValueError && unchanged(this)
      ensures index >= 0 ==> r == Ok(()) && Held() == old(Held()) + {index} && (Valid() <==> WholeBlock(net, index))
    {
      if index < 0 {
        return ValueError;
      }
      if index < next {
        if index in free {
          var k :| 0 <= k < |free| && free[k] == index;
          ghost var was := free;
          free := free[..k] + free[k + 1..];
          Without(was, k);
          assert Held() == old(Held()) + {index};
          assert forall i | i in free :: i in was;
        }
        return Ok(());
      }
      ghost var was := free;
      var i := next;
      while i < index
        invariant next == old(next) && next <= i <= index && Unique(free)
        invariant forall x :: x in free <==> x in was || next <= x < i
      {
        assert i !in free;
        free, i := free + [i], i + 1;
      }
      assert index !in free;
      next := index + 1;
      return Ok(());
    }
  }
}
