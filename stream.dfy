/**
 * The stream callback `rx()`: the I and Q halves of a block are repacked
 * into one interleaved buffer, and the AGC, when enabled, runs over the
 * first `numSamples` entries of that buffer.
 */
module Stream {
  import opened AgcSpec
  import Agc

  /** `xi[0], xq[0], xi[1], xq[1], ...`: the layout the sound card expects. */
  function Interleaved(xi: seq<Short>, xq: seq<Short>): (r: seq<Short>)
    requires |xi| == |xq|
    ensures |r| == 2 * |xi|
    ensures forall i :: 0 <= i < |xi| ==> r[2 * i] == xi[i] && r[2 * i + 1] == xq[i]
    decreases |xi|
  {
    if xi == [] then []
    else Interleaved(xi[..|xi| - 1], xq[..|xq| - 1]) + [xi[|xi| - 1], xq[|xq| - 1]]
  }

  /** The two element equations determine the buffer: any other buffer satisfying them is equal to it. */
  lemma InterleavedUnique(xi: seq<Short>, xq: seq<Short>, b: seq<Short>)
    requires |xi| == |xq| && |b| == 2 * |xi|
    requires forall i :: 0 <= i < |xi| ==> b[2 * i] == xi[i] && b[2 * i + 1] == xq[i]
    ensures b == Interleaved(xi, xq)
  {
    var r := Interleaved(xi, xq);
    forall j | 0 <= j < |b|
      ensures b[j] == r[j]
    {
      var i := j / 2;
      if j % 2 == 0 {
        assert j == 2 * i && b[2 * i] == xi[i] == r[2 * i];
      } else {
        assert j == 2 * i + 1 && b[2 * i + 1] == xq[i] == r[2 * i + 1];
      }
    }
  }

  /**
   * What the AGC sees of a block: entry `k` of the interleaved buffer is an
   * I sample for even `k` and a Q sample for odd `k`, both from pair `k / 2`.
   */
  lemma AgcInputOfBlock(xi: seq<Short>, xq: seq<Short>, n: nat)
    requires |xi| == |xq| && n <= |xi|
    ensures forall k :: 0 <= k < n ==>
      Interleaved(xi, xq)[..n][k] == if k % 2 == 0 then xi[k / 2] else xq[k / 2]
  {
    var r := Interleaved(xi, xq);
    forall k | 0 <= k < n
      ensures r[..n][k] == if k % 2 == 0 then xi[k / 2] else xq[k / 2]
    {
      var i := k / 2;
      if k % 2 == 0 {
        assert k == 2 * i;
      } else {
        assert k == 2 * i + 1;
      }
    }
  }

  /**
   * The repacking loop of `rx()`, followed by the AGC over the first
   * `numSamples` entries when the AGC is enabled. Returns the buffer handed
   * on to the sound card (or standard output).
   */
  method Rx(engine: Agc.Engine, agcEnable: bool, xi: array<Short>, xq: array<Short>, numSamples: nat)
    returns (buf: array<Short>)
    requires numSamples <= xi.Length && numSamples <= xq.Length
    requires engine.Valid()
    modifies engine
    ensures fresh(buf)
    ensures buf[..] == Interleaved(xi[..numSamples], xq[..numSamples])
    ensures engine.Valid()
    ensures agcEnable ==>
      var r := Run(engine.cfg, old(engine.State()), buf[..numSamples]);
      engine.State() == r.state && engine.pushes == old(engine.pushes) + r.pushes
    ensures !agcEnable ==>
      engine.State() == old(engine.State()) && engine.pushes == old(engine.pushes)
  {
    buf := new Short[2 * numSamples];
    var i := 0;
    while i < numSamples
      invariant 0 <= i <= numSamples
      modifies buf
      invariant forall k :: 0 <= k < i ==> buf[2 * k] == xi[k] && buf[2 * k + 1] == xq[k]
    {
      buf[2 * i] := xi[i];
      buf[2 * i + 1] := xq[i];
      i := i + 1;
    }
    InterleavedUnique(xi[..numSamples], xq[..numSamples], buf[..]);
    if agcEnable {
      engine.ProcessBlock(buf, numSamples);
    }
  }
}
