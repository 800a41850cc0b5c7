/** The arithmetic of the coordinator's round-robin port distribution
    (scannerlib.js, the default path of `initChild` and the loop of `scanInit`). */
module RoundRobin {
  import opened Common

  /** The ports a worker is sent, in sending order: `lo`, `lo + step`, ... while at most
      `hi` (the `for` loop of `initChild`, with `lo = START_PORT + num`, `step = WORKERS`). */
  function Stride(lo: int, hi: int, step: int): seq<int>
    requires step > 0
    decreases hi - lo + step
  {
    if lo > hi then [] else [lo] + Stride(lo + step, hi, step)
  }

  /** The ports sent lie in `[lo, hi]`, strictly increase, and there is at least one
      exactly when the range is not empty. */
  lemma {:induction false} StrideShape(lo: int, hi: int, step: int)
    requires step > 0
    ensures forall i :: 0 <= i < |Stride(lo, hi, step)| ==> lo <= Stride(lo, hi, step)[i] <= hi
    ensures Increasing(Stride(lo, hi, step))
    ensures lo <= hi <==> Stride(lo, hi, step) != []
    decreases hi - lo + step
  {
    if lo <= hi {
      StrideShape(lo + step, hi, step);
      var s, rest := Stride(lo, hi, step), Stride(lo + step, hi, step);
      assert s == [lo] + rest;
      assert forall i :: 1 <= i < |s| ==> s[i] == rest[i - 1];
    }
  }

  /** A port is sent exactly when it lies in `[lo, hi]` and is a whole number of steps
      past `lo`. */
  lemma {:induction false} StrideMembers(lo: int, hi: int, step: int, p: int)
    requires step > 0
    ensures p in Stride(lo, hi, step) <==> lo <= p <= hi && (p - lo) % step == 0
    decreases hi - lo + step
  {
    if lo <= hi {
      StrideMembers(lo + step, hi, step, p);
      StepResidue(p - lo, step);
    }
  }

  /** One step back keeps the remainder; a positive offset below one step is not a
      multiple of it. */
  lemma StepResidue(x: int, step: int)
    requires step > 0
    ensures x == 0 ==> x % step == 0
    ensures 0 < x < step ==> x % step != 0
    ensures x >= step ==> (x - step) % step == x % step
  {
    if x >= step {
      DivModUnique(x, step, (x - step) / step + 1, (x - step) % step);
    } else if x > 0 {
      DivModUnique(x, step, 0, x);
    }
  }

  /** The worker (0-based) that the round-robin distribution gives port `p`. */
  function Owner(start: int, workers: int, p: int): int
    requires workers > 0
  {
    (p - start) % workers
  }

  /** The ports of `[start, end]` that the round-robin distribution gives worker `num`. */
  ghost function Owned(start: int, end: int, workers: int, num: int): set<int>
    requires workers > 0
  {
    set p | start <= p <= end && Owner(start, workers, p) == num
  }

  /** The ports of `[start, end]` given to workers `0 .. k-1`. */
  ghost function OwnedBelow(start: int, end: int, workers: int, k: int): set<int>
    requires workers > 0
  {
    set p | start <= p <= end && Owner(start, workers, p) < k
  }

  /** The number of ports assigned to workers `0 .. k-1`, worker by worker. */
  ghost function AssignedTotal(start: int, end: int, workers: int, k: nat): int
    requires workers > 0
  {
    if k == 0 then 0 else AssignedTotal(start, end, workers, k - 1) + |Owned(start, end, workers, k - 1)|
  }

  /** The ports worker `num` is sent by the default path of `initChild`, in sending order. */
  function Sent(start: int, end: int, workers: int, num: int): (s: seq<int>)
    requires workers > 0
  {
    Stride(start + num, end, workers)
  }

  /** Worker `num` is sent exactly the ports the round-robin distribution gives it. */
  lemma SentIsOwned(start: int, end: int, workers: int, num: int)
    requires workers > 0 && 0 <= num < workers
    ensures (set p | p in Sent(start, end, workers, num)) == Owned(start, end, workers, num)
  {
    forall p
      ensures p in Sent(start, end, workers, num) <==> p in Owned(start, end, workers, num)
    {
      SentAt(start, end, workers, num, p);
    }
  }

  lemma SentAt(start: int, end: int, workers: int, num: int, p: int)
    requires workers > 0 && 0 <= num < workers
    ensures p in Sent(start, end, workers, num) <==> start <= p <= end && Owner(start, workers, p) == num
  {
    StrideMembers(start + num, end, workers, p);
    ResidueShift(p - start, num, workers);
  }

  /** `x` leaves remainder `num` exactly when `x - num` is a non-negative multiple. */
  lemma ResidueShift(x: int, num: int, step: int)
    requires step > 0 && 0 <= num < step
    ensures x >= 0 && x % step == num <==> x - num >= 0 && (x - num) % step == 0
  {
    if x >= 0 && x % step == num {
      var q := x / step;
      if q < 0 { MulAtLeast(-q, step); }
      DivModUnique(x - num, step, q, 0);
    }
    if x - num >= 0 && (x - num) % step == 0 {
      DivModUnique(x, step, (x - num) / step, num);
    }
  }

  /** The round-robin distribution partitions `[start, end]`: every port lies in the share
      of its owner, one of the workers `0 .. workers-1` (shares are disjoint because `Owner`
      is a function), and the per-worker counts add up to the size of the range. */
  lemma RoundRobinPartition(start: int, end: int, workers: int)
    requires workers > 0 && start <= end + 1
    ensures forall p :: start <= p <= end ==>
      0 <= Owner(start, workers, p) < workers && p in Owned(start, end, workers, Owner(start, workers, p))
    ensures AssignedTotal(start, end, workers, workers) == end - start + 1
  {
    OwnedBelowSize(start, end, workers, workers);
    assert OwnedBelow(start, end, workers, workers) == Interval(start, end);
    IntervalSize(start, end);
  }

  lemma {:induction false} OwnedBelowSize(start: int, end: int, workers: int, k: nat)
    requires workers > 0
    ensures AssignedTotal(start, end, workers, k) == |OwnedBelow(start, end, workers, k)|
  {
    if k == 0 {
      assert OwnedBelow(start, end, workers, k) == {};
    } else {
      OwnedBelowSize(start, end, workers, k - 1);
      var below, own := OwnedBelow(start, end, workers, k - 1), Owned(start, end, workers, k - 1);
      assert OwnedBelow(start, end, workers, k) == below + own;
      assert below * own == {};
    }
  }

  lemma MulAtLeast(d: int, step: int)
    requires step > 0 && d >= 1
    ensures d * step >= step
  {
  }

  /** Euclidean division is unique: `q` and `r` are the quotient and remainder of `x`. */
  lemma DivModUnique(x: int, step: int, q: int, r: int)
    requires step > 0 && 0 <= r < step && x == q * step + r
    ensures x % step == r && x / step == q
  {
    var q0, r0 := x / step, x % step;
    assert x == q0 * step + r0;
    assert (q - q0) * step == r0 - r;
    if q > q0 { MulAtLeast(q - q0, step); }
    if q0 > q { MulAtLeast(q0 - q, step); }
  }
}
