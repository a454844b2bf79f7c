/** The integer distance loops: the 8-lane strided kernel and its scalar twin. Both work in
  * wrapping 32-bit arithmetic; on grid codes nothing wraps and they agree.
  */
module Kernel {
  import opened Grid
  import opened Words
  import opened Layout

  const LANES: int := 8

  lemma PartialSum(qc: Codes, c: Codes, d: nat)
    requires d < DIMS
    ensures 0 <= ISumTo(ITerms(qc, c), d) <= ISumTo(ITerms(qc, c), d + 1) < MAX_INT32
  {
    ISumBounds(ITerms(qc, c), d, MAX_CODE * MAX_CODE);
    ISumBounds(ITerms(qc, c), d + 1, MAX_CODE * MAX_CODE);
  }

  /** One lane of one dimension: acc + (code - q)^2 in int32. */
  function Step(acc: int, q: int, code: int): int {
    var t := Wrap32(code - q);
    Wrap32(acc + Wrap32(t * t))
  }

  /** On grid codes the wrapping step adds exactly one more squared difference. */
  lemma StepAdds(qc: Codes, c: Codes, d: nat)
    requires d < DIMS
    ensures Step(ISumTo(ITerms(qc, c), d), qc[d], c[d]) == ISumTo(ITerms(qc, c), d + 1)
    ensures Step(ISumTo(ITerms(qc, c), d), c[d], qc[d]) == ISumTo(ITerms(qc, c), d + 1)
  {
    PartialSum(qc, c, d);
    var t := qc[d] - c[d];
    ITermBound(t);
    assert -t * -t == t * t;
    assert ITerms(qc, c)[d] == t * t;
  }

  /** Scalar loop of intDist and centroidIntDist. */
  method ScalarIntDist(qc: Codes, s: seq<int>, off: int, stride: int) returns (d: int)
    requires OnGrid(s) && 0 <= off && 0 <= stride && off + 13 * stride < |s|
    ensures d == IntDist(qc, Strided(s, off, stride))
  {
    ghost var c := Strided(s, off, stride);
    d := 0;
    for i := 0 to DIMS
      invariant d == ISumTo(ITerms(qc, c), i)
    {
      StridedAt(s, off, stride, i);
      StepAdds(qc, c, i);
      d := Step(d, s[off + i * stride], qc[i]);
    }
  }

  lemma LaneCode(soa: seq<int>, start: int, stride: int, l: int, d: int)
    requires OnGrid(soa) && 0 <= start && 0 <= stride && start + 13 * stride + LANES <= |soa|
    requires 0 <= l < LANES && 0 <= d < DIMS
    ensures 0 <= start + d * stride + l < |soa|
    ensures Strided(soa, start + l, stride)[d] == soa[start + d * stride + l]
  {
    StridedAt(soa, start + l, stride, d);
  }

  /** The dimension loop of the kernel: `si` walks down the dimensions, eight lanes accumulate. */
  method BlockDist(qc: Codes, soa: seq<int>, start: int, stride: int) returns (acc: seq<int>)
    requires OnGrid(soa) && 0 <= start && 0 <= stride && start + 13 * stride + LANES <= |soa|
    ensures |acc| == LANES
    ensures forall l | 0 <= l < LANES :: acc[l] == IntDist(qc, Strided(soa, start + l, stride))
  {
    hide OnGrid, Step, Strided, ITerms;
    var si := start;
    acc := seq(LANES, _ => 0);
    var d := 0;
    while d < DIMS
      invariant 0 <= d <= DIMS
      invariant si == start + d * stride
      invariant |acc| == LANES
      invariant forall l | 0 <= l < LANES :: acc[l] == ISumTo(ITerms(qc, Strided(soa, start + l, stride)), d)
    {
      StrideBound(stride, d);
      ghost var before := acc;
      forall l | 0 <= l < LANES
        ensures Step(before[l], qc[d], soa[si + l]) == ISumTo(ITerms(qc, Strided(soa, start + l, stride)), d + 1)
      {
        LaneCode(soa, start, stride, l, d);
        StepAdds(qc, Strided(soa, start + l, stride), d);
      }
      acc := seq(LANES, l requires 0 <= l < LANES && 0 <= si + l < |soa| && |acc| == LANES && 0 <= d < DIMS =>
        Step(acc[l], qc[d], soa[si + l]));
      si := si + stride;
      d := d + 1;
    }
  }

  /** distSoAi16AVX2: `nBlocks` blocks of eight adjacent rows. Every load is in bounds as soon as the
    * last dimension of the last block is. */
  method DistSoAi16(qc: Codes, soa: seq<int>, base: int, stride: int, nBlocks: int, out: array<int>)
    requires OnGrid(soa) && 0 <= base && 0 <= nBlocks && nBlocks * LANES <= stride
    requires base + 13 * stride + nBlocks * LANES <= |soa|
    requires nBlocks * LANES <= out.Length
    modifies out
    ensures forall r | 0 <= r < nBlocks * LANES :: out[r] == IntDist(qc, Strided(soa, base + r, stride))
  {
    hide OnGrid, IntDist;
    var block := 0;
    while block < nBlocks
      invariant 0 <= block <= nBlocks
      invariant forall r | 0 <= r < block * LANES :: out[r] == IntDist(qc, Strided(soa, base + r, stride))
    {
      var acc := BlockDist(qc, soa, base + block * LANES, stride);
      for l := 0 to LANES
        invariant forall r | 0 <= r < block * LANES + l :: out[r] == IntDist(qc, Strided(soa, base + r, stride))
      {
        assert base + block * LANES + l == base + (block * LANES + l);
        out[block * LANES + l] := acc[l];
      }
      block := block + 1;
    }
  }
}
