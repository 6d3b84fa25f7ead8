/**
 Per-CPU counter columns: what the kernel stores, what user space sums, and the law that makes
 interval deltas add up to the events.

 A column holds one machine word per CPU. Beside it the model keeps the exact, unwrapped value.
 */
module PerCpu {
  import opened Common

  function Zeros(cpus: nat): (s: seq<int>)
    ensures |s| == cpus && forall i :: 0 <= i < cpus ==> s[i] == 0
  {
    seq(cpus, i => 0)
  }

  function Sum(xs: seq<int>): int {
    if xs == [] then 0 else Sum(xs[..|xs| - 1]) + xs[|xs| - 1]
  }

  lemma {:induction false} SumUpdate(xs: seq<int>, i: nat, x: int)
    requires i < |xs|
    ensures Sum(xs[i := x]) == Sum(xs) - xs[i] + x
  {
    var last := |xs| - 1;
    var ys := xs[i := x];
    if i == last {
      assert ys[..last] == xs[..last];
    } else {
      assert ys[..last] == xs[..last][i := x];
      SumUpdate(xs[..last], i, x);
    }
  }

  lemma {:induction false} SumZeros(xs: seq<int>)
    requires forall i :: 0 <= i < |xs| ==> xs[i] == 0
    ensures Sum(xs) == 0
  {
    if xs != [] {
      SumZeros(xs[..|xs| - 1]);
    }
  }

  lemma {:induction false} SumBoundsParts(xs: seq<int>)
    requires forall i :: 0 <= i < |xs| ==> xs[i] >= 0
    ensures Sum(xs) >= 0
    ensures forall i :: 0 <= i < |xs| ==> xs[i] <= Sum(xs)
  {
    if xs != [] {
      SumBoundsParts(xs[..|xs| - 1]);
    }
  }

  // -------------------------------------------------------- unsigned columns

  /** The fold of `saturating_add` over all CPUs. */
  function SatSum(xs: seq<u64>): u64 {
    if xs == [] then 0 else SatAdd(SatSum(xs[..|xs| - 1]), xs[|xs| - 1])
  }

  /** Saturating at every CPU is the same as clamping the exact sum once. */
  lemma {:induction false} SatSumClampsSum(xs: seq<u64>)
    ensures SatSum(xs) == if Sum(xs) < U64_LIMIT then Sum(xs) else U64_LIMIT - 1
    ensures Sum(xs) >= 0
  {
    if xs != [] {
      SatSumClampsSum(xs[..|xs| - 1]);
    }
  }

  /** Each stored word is its exact, non-negative value modulo 2^64. */
  ghost predicate Tracks(column: seq<u64>, exact: seq<int>) {
    && |column| == |exact|
    && forall i :: 0 <= i < |column| ==> exact[i] >= 0 && column[i] == WrapU64(exact[i])
  }

  function Bump(column: seq<u64>, cpu: nat, d: nat): seq<u64>
    requires cpu < |column|
  {
    column[cpu := WrapU64(column[cpu] + d)]
  }

  function BumpExact(exact: seq<int>, cpu: nat, d: int): (r: seq<int>)
    requires cpu < |exact|
    ensures Sum(r) == Sum(exact) + d
  {
    SumUpdate(exact, cpu, exact[cpu] + d);
    exact[cpu := exact[cpu] + d]
  }

  lemma BumpTracks(column: seq<u64>, exact: seq<int>, cpu: nat, d: nat)
    requires Tracks(column, exact) && cpu < |column|
    ensures Tracks(Bump(column, cpu, d), BumpExact(exact, cpu, d))
  {
    WrapU64Absorbs(exact[cpu], d);
  }

  /** Below 2^64 in total, user space reads the exact total. */
  lemma ReadIsExact(column: seq<u64>, exact: seq<int>)
    requires Tracks(column, exact) && Sum(exact) < U64_LIMIT
    ensures SatSum(column) == Sum(exact)
  {
    SumBoundsParts(exact);
    assert column == exact;
    SatSumClampsSum(column);
  }

  /**
   The law shared by every interval counter: as long as the exact total fits in 64 bits, the deltas
   reported so far add up to the last reading, which the exact total has not fallen below.
   */
  ghost predicate Telescoped(column: seq<u64>, exact: seq<int>, previous: u64, reported: int) {
    Tracks(column, exact) && (Sum(exact) < U64_LIMIT ==> reported == previous <= Sum(exact))
  }

  lemma StartTelescoped(column: seq<u64>, exact: seq<int>)
    requires column == exact == Zeros(|exact|)
    ensures Telescoped(column, exact, 0, 0) && Sum(exact) == 0
  {
    SumZeros(exact);
  }

  lemma BumpKeeps(column: seq<u64>, exact: seq<int>, previous: u64, reported: int, cpu: nat, d: nat)
    requires Telescoped(column, exact, previous, reported) && cpu < |column|
    ensures Telescoped(Bump(column, cpu, d), BumpExact(exact, cpu, d), previous, reported)
  {
    BumpTracks(column, exact, cpu, d);
  }

  lemma ReadKeeps(column: seq<u64>, exact: seq<int>, previous: u64, reported: int)
    requires Telescoped(column, exact, previous, reported)
    ensures Telescoped(column, exact, SatSum(column), reported + SatSub(SatSum(column), previous))
    ensures Sum(exact) < U64_LIMIT ==> SatSum(column) == Sum(exact)
  {
    if Sum(exact) < U64_LIMIT {
      ReadIsExact(column, exact);
    }
  }

  // ---------------------------------------------------------- signed columns

  ghost predicate TracksSigned(column: seq<s64>, exact: seq<int>) {
    |column| == |exact| && forall i :: 0 <= i < |column| ==> column[i] == WrapS64(exact[i])
  }

  function BumpSigned(column: seq<s64>, cpu: nat, d: int): seq<s64>
    requires cpu < |column|
  {
    column[cpu := WrapS64(column[cpu] + d)]
  }

  lemma BumpSignedTracks(column: seq<s64>, exact: seq<int>, cpu: nat, d: int)
    requires TracksSigned(column, exact) && cpu < |column|
    ensures TracksSigned(BumpSigned(column, cpu, d), BumpExact(exact, cpu, d))
  {
    WrapS64Absorbs(exact[cpu], d);
  }

  function SatSumSigned(xs: seq<s64>): s64 {
    if xs == [] then 0 else SatAddS64(SatSumSigned(xs[..|xs| - 1]), xs[|xs| - 1])
  }

  /** Total movement on a column, the scale at which signed 64-bit counters would overflow. */
  function Magnitude(xs: seq<int>): nat {
    if xs == [] then 0
    else Magnitude(xs[..|xs| - 1]) + (if xs[|xs| - 1] < 0 then -xs[|xs| - 1] else xs[|xs| - 1])
  }

  lemma {:induction false} SignedReadIsExact(column: seq<s64>, exact: seq<int>)
    requires TracksSigned(column, exact) && Magnitude(exact) < S64_LIMIT
    ensures SatSumSigned(column) == Sum(exact)
    ensures 0 - Magnitude(exact) <= Sum(exact) <= Magnitude(exact)
  {
    if exact != [] {
      var last := |exact| - 1;
      SignedReadIsExact(column[..last], exact[..last]);
      assert column[last] == exact[last];
    }
  }
}
