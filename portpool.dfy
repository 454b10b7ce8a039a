/** The port pool: a set of used ports over a fixed inclusive range, allocated lowest first. */
module Ports {
  import opened Wrappers

  /** The lowest port of lo..hi that is not in used, if any. */
  function LowestFree(used: set<int>, lo: int, hi: int): (r: Option<int>)
    ensures r.Some? ==> lo <= r.value <= hi && r.value !in used
    ensures r.Some? ==> forall q :: lo <= q < r.value ==> q in used
    ensures r.None? <==> forall q :: lo <= q <= hi ==> q in used
    decreases hi - lo
  {
    if lo > hi then None
    else if lo !in used then Some(lo)
    else LowestFree(used, lo + 1, hi)
  }

  /** The ports lo..hi as a set. */
  function Range(lo: int, hi: int): (r: set<int>)
    ensures forall q :: q in r <==> lo <= q <= hi
    decreases hi - lo
  {
    if lo > hi then {} else {lo} + Range(lo + 1, hi)
  }

  lemma {:induction false} RangeSize(lo: int, hi: int)
    ensures |Range(lo, hi)| == if lo <= hi then hi - lo + 1 else 0
    decreases hi - lo
  {
    if lo <= hi {
      RangeSize(lo + 1, hi);
      assert lo !in Range(lo + 1, hi);
    }
  }

  lemma RangeExtend(lo: int, hi: int)
    requires lo <= hi + 1
    ensures Range(lo, hi + 1) == Range(lo, hi) + {hi + 1}
  {
  }

  /** While fewer ports are in use than the range holds, some port of the range is free. */
  lemma FreeWhileBelowCapacity(used: set<int>, lo: int, hi: int)
    requires used <= Range(lo, hi)
    ensures LowestFree(used, lo, hi).Some? <==> |used| < if lo <= hi then hi - lo + 1 else 0
  {
    RangeSize(lo, hi);
    if LowestFree(used, lo, hi).None? {
      assert Range(lo, hi) <= used;
      assert used == Range(lo, hi);
    } else {
      var p := LowestFree(used, lo, hi).value;
      SubsetCardinality(used, Range(lo, hi) - {p});
    }
  }

  lemma {:induction false} SubsetCardinality(a: set<int>, b: set<int>)
    requires a <= b
    ensures |a| <= |b|
    decreases |b|
  {
    assert a * b == a && a - b == {};
    assert |b| == |b - a| + |a|;
  }

  class PortPool {
    const minPort: int
    const maxPort: int
    var used: set<int>

    /** Every used port lies in the pool's range. */
    ghost predicate Valid()
      reads this
    {
      forall p :: p in used ==> minPort <= p <= maxPort
    }

    /** NewPortPool: an empty pool over minPort..maxPort. */
    constructor (minPort: int, maxPort: int)
      ensures this.minPort == minPort && this.maxPort == maxPort
      ensures used == {}
      ensures Valid()
    {
      this.minPort := minPort;
      this.maxPort := maxPort;
      used := {};
    }

    /** Scans the range upwards and takes the first unused port; fails with
        "no available ports", changing nothing, when all are used. */
    method Allocate() returns (r: Result<int>)
      requires Valid()
      modifies this
      ensures Valid()
      ensures LowestFree(old(used), minPort, maxPort).Some? ==>
        r == Ok(LowestFree(old(used), minPort, maxPort).value) && used == old(used) + {r.value}
      ensures LowestFree(old(used), minPort, maxPort).None? ==>
        r == Err("no available ports") && used == old(used)
    {
      var port := minPort;
      while port <= maxPort
        invariant LowestFree(used, port, maxPort) == LowestFree(used, minPort, maxPort)
        invariant used == old(used)
        decreases maxPort - port
      {
        if port !in used {
          used := used + {port};
          return Ok(port);
        }
        port := port + 1;
      }
      return Err("no available ports");
    }

    /** Forgets the port; a port that was not in use is a no-op. */
    method Release(port: int)
      requires Valid()
      modifies this
      ensures Valid()
      ensures used == old(used) - {port}
    {
      used := used - {port};
    }

    method IsAllocated(port: int) returns (b: bool)
      ensures b <==> port in used
    {
      b := port in used;
    }
  }

  /** n allocations on an empty pool with room for them hand out the n lowest ports in order. */
  method AllocateMany(pool: PortPool, n: nat) returns (ports: seq<int>)
    requires pool.Valid() && pool.used == {} && n <= pool.maxPort - pool.minPort + 1
    modifies pool
    ensures pool.Valid() && pool.used == Range(pool.minPort, pool.minPort - 1 + n)
    ensures |ports| == n && forall k :: 0 <= k < n ==> ports[k] == pool.minPort + k
  {
    ports := [];
    var i := 0;
    while i < n
      invariant 0 <= i <= n
      invariant pool.Valid() && pool.used == Range(pool.minPort, pool.minPort - 1 + i)
      invariant |ports| == i && forall k :: 0 <= k < i ==> ports[k] == pool.minPort + k
    {
      assert LowestFree(pool.used, pool.minPort, pool.maxPort) == Some(pool.minPort + i) by {
        assert pool.minPort + i !in pool.used;
      }
      ghost var before := pool.used;
      var r := pool.Allocate();
      assert r == Ok(pool.minPort + i) && pool.used == before + {pool.minPort + i};
      RangeExtend(pool.minPort, pool.minPort - 1 + i);
      ports := ports + [r.value];
      i := i + 1;
    }
  }

  /** On the terminal manager's pool, five allocations give 8081..8085, and a released port is
      the next one handed out again. */
  method AllocationScenario() returns (ports: seq<int>, again: Result<int>, released: bool)
    ensures ports == [8081, 8082, 8083, 8084, 8085]
    ensures again == Ok(8081)
    ensures !released
  {
    var pool := new PortPool(8081, 8181);
    ports := AllocateMany(pool, 5);
    pool.Release(8081);
    released := pool.IsAllocated(8081);
    again := pool.Allocate();
  }

  /** A pool built with the bounds 0 and 0, as the port-pool test builds it, holds the single
      port 0: the first allocation returns 0 and the second finds none. Ports are scanned in the
      configured range, not taken from the operating system. */
  method ZeroRangeScenario() returns (first: Result<int>, second: Result<int>)
    ensures first == Ok(0)
    ensures second == Err("no available ports")
  {
    var pool := new PortPool(0, 0);
    first := pool.Allocate();
    second := pool.Allocate();
  }
}
