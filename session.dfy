/**
 * Start-up of the AGC as `main()` performs it once the options are read:
 * the sample-rate checks, the AGC configuration, and the initial gain push
 * made right after the stream is started.
 */
module Session {
  import opened AgcSpec
  import opened Config
  import Agc

  /**
   * Returns no engine when `main()` would exit on the rate checks; otherwise
   * an engine over the configured gain, with that gain pushed once.
   */
  method Start(opts: seq<GainOption>, increaseThreshold: int, decreaseThreshold: int,
               windowMs: int, overloadCount: int, increaseHoldMs: int, decreaseHoldMs: int,
               rate: int)
    returns (engine: Agc.Engine?)
    ensures engine == null <==> CheckRate(rate) != RateOk
    ensures engine != null ==>
      var s := ApplyOptions(Defaults, opts);
      fresh(engine) && engine.Valid() &&
      engine.cfg == AgcConfigOf(s, increaseThreshold, decreaseThreshold, windowMs,
                                overloadCount, increaseHoldMs, decreaseHoldMs, rate) &&
      engine.State() == Initial(s.gain) && engine.pushes == [s.gain]
  {
    if CheckRate(rate) != RateOk {
      return null;
    }
    var s := ApplyOptions(Defaults, opts);
    var cfg := AgcConfigOf(s, increaseThreshold, decreaseThreshold, windowMs,
                           overloadCount, increaseHoldMs, decreaseHoldMs, rate);
    ConfiguredAgcIsValid(opts, increaseThreshold, decreaseThreshold, windowMs,
                         overloadCount, increaseHoldMs, decreaseHoldMs, rate);
    engine := new Agc.Engine(cfg, s.gain);
    engine.PushGain();
  }
}
