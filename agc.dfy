/**
 * The AGC engine as the source keeps it: a set of mutable counters updated
 * sample by sample, and a gain reduction that is pushed to the receiver
 * whenever a window evaluation changes it.
 */
module Agc {
  import opened AgcSpec

  class Engine {
    /** The configuration, fixed after start-up. */
    const cfg: AgcConfig

    var counterSamples: int
    var agcTimer: int
    var increaseTimer: int
    var decreaseTimer: int
    var maxAdc: int
    var adcHighCount: int
    var gainReduction: int

    /**
     * Every gain reduction written to the receiver by
     * `update_sdrplay_gain_reduction`, oldest first.
     */
    ghost var pushes: seq<int>

    /** The counters as a value of the specification. */
    function State(): AgcState
      reads this
    {
      AgcState(counterSamples, agcTimer, increaseTimer, decreaseTimer, maxAdc, adcHighCount, gainReduction)
    }

    ghost predicate Valid()
      reads this
    {
      ValidConfig(cfg) && StateInv(cfg, State())
    }

    /** The zero-initialised counters, with the gain reduction chosen at start-up. */
    constructor (cfg: AgcConfig, gain: int)
      requires ValidConfig(cfg) && InBand(cfg, gain)
      ensures Valid() && this.cfg == cfg
      ensures State() == Initial(gain) && pushes == []
    {
      this.cfg := cfg;
      counterSamples, agcTimer, increaseTimer, decreaseTimer := 0, 0, 0, 0;
      maxAdc, adcHighCount := 0, 0;
      gainReduction := gain;
      pushes := [];
    }

    /** Writes the current gain reduction to the receiver's tuner parameters. */
    method PushGain()
      modifies `pushes
      ensures pushes == old(pushes) + [gainReduction]
    {
      pushes := pushes + [gainReduction];
    }

    /** One iteration of the sample loop of `agc()`. */
    method Step(sample: Short)
      requires Valid()
      modifies this
      ensures Valid()
      ensures var r := AgcSpec.Step(cfg, old(State()), sample);
        State() == r.state &&
        pushes == old(pushes) + if r.gainChanged then [gainReduction] else []
    {
      ghost var s0 := State();
      counterSamples := counterSamples + 1;
      if counterSamples > cfg.timerScaling {
        counterSamples := 0;
        agcTimer := agcTimer + 1;
        increaseTimer := increaseTimer + 1;
        decreaseTimer := decreaseTimer + 1;
      }
      ghost var ticked := State();
      assert ticked == Tick(cfg, s0);
      var absAdc := Abs(sample);
      if absAdc > maxAdc {
        maxAdc := absAdc;
      }
      if absAdc > cfg.increaseThreshold {
        if adcHighCount < HighCountCap {
          adcHighCount := adcHighCount + 1;
        }
      }
      assert State() == Track(cfg, ticked, absAdc);
      ghost var r := AgcSpec.Step(cfg, s0, sample);
      var gainChanged := EvaluateWindow();
      assert State() == r.state && gainChanged == r.gainChanged;
      StepKeepsInvariant(cfg, s0, sample);
      if gainChanged {
        PushGain();
      }
    }

    /**
     * The window evaluation at the end of each iteration: at most one gain
     * path, then the window accumulators restart. Reports whether the gain
     * is to be pushed.
     */
    method EvaluateWindow() returns (gainChanged: bool)
      modifies this
      ensures var r := Evaluate(cfg, old(State()));
        State() == r.state && gainChanged == r.gainChanged
      ensures pushes == old(pushes)
    {
      gainChanged := false;
      if agcTimer >= cfg.windowMs {
        if increaseTimer > cfg.increaseHoldMs && adcHighCount > cfg.overloadCount {
          if gainReduction < cfg.increaseThreshold {
            gainReduction := gainReduction + cfg.stepInc;
            if gainReduction > GainCeiling {
              gainReduction := cfg.maxGain;
            }
            gainChanged := true;
            increaseTimer := 0;
            decreaseTimer := 0;
          }
        } else if maxAdc < cfg.decreaseThreshold {
          if decreaseTimer > cfg.decreaseHoldMs {
            if gainReduction > cfg.minGain {
              gainReduction := gainReduction - cfg.stepDec;
              gainChanged := true;
              increaseTimer := 0;
              decreaseTimer := 0;
              adcHighCount := 0;
            }
          }
        }
        maxAdc := 0;
        agcTimer := 0;
        adcHighCount := 0;
      }
    }

    /** `agc()`: the step over the first `numSamples` entries of `buf`. */
    method ProcessBlock(buf: array<Short>, numSamples: nat)
      requires Valid() && numSamples <= buf.Length
      modifies this
      ensures Valid()
      ensures var r := Run(cfg, old(State()), buf[..numSamples]);
        State() == r.state && pushes == old(pushes) + r.pushes
    {
      var i := 0;
      while i < numSamples
        invariant 0 <= i <= numSamples
        invariant Valid()
        invariant var r := Run(cfg, old(State()), buf[..i]);
          State() == r.state && pushes == old(pushes) + r.pushes
      {
        assert buf[..i + 1][..i] == buf[..i];
        Step(buf[i]);
        i := i + 1;
      }
    }
  }
}
