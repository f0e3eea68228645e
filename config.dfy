/**
 * Start-up configuration of sdrplayalsa as `main()` normalises it: the gain
 * and step-size options with their clamps, the sample-rate check, the
 * rate-to-decimation table, the AGC millisecond scaling, and the relative
 * gain value written to the gain file.
 */
module Config {
  import opened AgcSpec

  /** The option-controlled gain globals. */
  datatype Settings = Settings(
    gain: int,      // gain_reduction
    minGain: int,   // min_gain_reduction
    maxGain: int,   // max_gain_reduction
    stepInc: int,   // gainstep_inc
    stepDec: int)   // gainstep_dec

  /** The static initial values of those globals. */
  const Defaults: Settings := Settings(30, 30, 59, 1, 1)

  /** Lowest minimum gain reduction `-g` accepts. */
  const GainFloor: int := 19

  /** The gain-related options, each with the integer already parsed. */
  datatype GainOption =
    | MinGainOpt(v: int)   // -g
    | MaxGainOpt(v: int)   // -G
    | StepIncOpt(v: int)   // -S
    | StepDecOpt(v: int)   // -s

  /** What every sequence of options leaves true of the gain globals. */
  ghost predicate WellFormed(s: Settings)
  {
    GainFloor <= s.minGain == s.gain <= s.maxGain <= GainCeiling &&
    1 <= s.stepInc <= 10 && 1 <= s.stepDec <= 10
  }

  function Distance(a: int, b: int): (d: nat)
  {
    if a < b then b - a else a - b
  }

  /** The clamp of `-S` and `-s`: the value of [1, 10] closest to the request. */
  function ClampStep(v: int): (r: int)
    ensures 1 <= r <= 10
    ensures forall w :: 1 <= w <= 10 ==> Distance(r, v) <= Distance(w, v)
  {
    if v < 1 then 1 else if v > 10 then 10 else v
  }

  /**
   * `-g`: the minimum gain reduction, raised to 19 or lowered to the current
   * maximum, also becomes the current gain reduction.
   */
  function ApplyMinGain(s: Settings, v: int): (r: Settings)
    ensures r.gain == r.minGain
    ensures r.maxGain == s.maxGain && r.stepInc == s.stepInc && r.stepDec == s.stepDec
    ensures s.maxGain >= GainFloor ==> GainFloor <= r.minGain <= s.maxGain
    ensures GainFloor <= v <= s.maxGain ==> r.minGain == v
    ensures v < GainFloor ==> r.minGain == GainFloor
    ensures GainFloor <= v && v > s.maxGain ==> r.minGain == s.maxGain
  {
    var m := if v < GainFloor then GainFloor else if v > s.maxGain then s.maxGain else v;
    s.(minGain := m, gain := m)
  }

  /**
   * `-G`: the maximum gain reduction, raised to the current gain reduction
   * or lowered to 59.
   */
  function ApplyMaxGain(s: Settings, v: int): (r: Settings)
    ensures r.gain == s.gain && r.minGain == s.minGain
    ensures r.stepInc == s.stepInc && r.stepDec == s.stepDec
    ensures s.gain <= GainCeiling ==> s.gain <= r.maxGain <= GainCeiling
    ensures s.gain <= v <= GainCeiling ==> r.maxGain == v
    ensures v < s.gain ==> r.maxGain == s.gain
    ensures s.gain <= v && v > GainCeiling ==> r.maxGain == GainCeiling
  {
    s.(maxGain := if v < s.gain then s.gain else if v > GainCeiling then GainCeiling else v)
  }

  /** One option changes only the globals it names (`-g` sets the gain too). */
  function ApplyOption(s: Settings, o: GainOption): (r: Settings)
    ensures !o.MinGainOpt? ==> r.minGain == s.minGain && r.gain == s.gain
    ensures !o.MaxGainOpt? ==> r.maxGain == s.maxGain
    ensures !o.StepIncOpt? ==> r.stepInc == s.stepInc
    ensures !o.StepDecOpt? ==> r.stepDec == s.stepDec
    ensures o.MinGainOpt? ==> r == ApplyMinGain(s, o.v)
    ensures o.MaxGainOpt? ==> r == ApplyMaxGain(s, o.v)
    ensures o.StepIncOpt? ==> r.stepInc == ClampStep(o.v)
    ensures o.StepDecOpt? ==> r.stepDec == ClampStep(o.v)
  {
    match o
    case MinGainOpt(v) => ApplyMinGain(s, v)
    case MaxGainOpt(v) => ApplyMaxGain(s, v)
    case StepIncOpt(v) => s.(stepInc := ClampStep(v))
    case StepDecOpt(v) => s.(stepDec := ClampStep(v))
  }

  /** The options in command-line order, each applied to what the previous ones left. */
  function ApplyOptions(s: Settings, opts: seq<GainOption>): (r: Settings)
    ensures (forall k :: 0 <= k < |opts| ==> !opts[k].MinGainOpt?) ==>
      r.minGain == s.minGain && r.gain == s.gain
    ensures (forall k :: 0 <= k < |opts| ==> !opts[k].MaxGainOpt?) ==> r.maxGain == s.maxGain
    ensures (forall k :: 0 <= k < |opts| ==> !opts[k].StepIncOpt?) ==> r.stepInc == s.stepInc
    ensures (forall k :: 0 <= k < |opts| ==> !opts[k].StepDecOpt?) ==> r.stepDec == s.stepDec
    decreases |opts|
  {
    if opts == [] then s else ApplyOptions(ApplyOption(s, opts[0]), opts[1..])
  }

  /** Command-line order: a further option acts on what all earlier ones left. */
  lemma {:induction false} ApplyOptionsSnoc(s: Settings, opts: seq<GainOption>, o: GainOption)
    ensures ApplyOptions(s, opts + [o]) == ApplyOption(ApplyOptions(s, opts), o)
    decreases |opts|
  {
    if opts != [] {
      assert (opts + [o])[0] == opts[0];
      assert (opts + [o])[1..] == opts[1..] + [o];
      ApplyOptionsSnoc(ApplyOption(s, opts[0]), opts[1..], o);
    }
  }

  /**
   * Order matters: `-G 40 -g 50` ends with minimum 40 (the `-g` request is
   * lowered to the maximum), and of two `-S` options the later one wins.
   */
  lemma OptionOrderMatters()
    ensures ApplyOptions(Defaults, [MaxGainOpt(40), MinGainOpt(50)]).minGain == 40
    ensures ApplyOptions(Defaults, [MinGainOpt(50), MaxGainOpt(40)]).minGain == 50
    ensures ApplyOptions(Defaults, [StepIncOpt(3), StepIncOpt(5)]).stepInc == 5
  {
    ApplyOptionsSnoc(Defaults, [MaxGainOpt(40)], MinGainOpt(50));
    ApplyOptionsSnoc(Defaults, [MinGainOpt(50)], MaxGainOpt(40));
    ApplyOptionsSnoc(Defaults, [StepIncOpt(3)], StepIncOpt(5));
  }

  /** One option keeps the gain globals well formed. */
  lemma ApplyOptionKeepsWellFormed(s: Settings, o: GainOption)
    requires WellFormed(s)
    ensures WellFormed(ApplyOption(s, o))
  {
  }

  /**
   * Whatever options are given, in whatever order: steps in [1, 10], and
   * 19 <= min_gain_reduction == gain_reduction <= max_gain_reduction <= 59.
   */
  lemma {:induction false} OptionsWellFormed(s: Settings, opts: seq<GainOption>)
    requires WellFormed(s)
    ensures WellFormed(ApplyOptions(s, opts))
    decreases |opts|
  {
    if opts != [] {
      ApplyOptionKeepsWellFormed(s, opts[0]);
      OptionsWellFormed(ApplyOption(s, opts[0]), opts[1..]);
    }
  }

  /** The defaults are well formed, hence so is every command line. */
  lemma CommandLineWellFormed(opts: seq<GainOption>)
    ensures WellFormed(ApplyOptions(Defaults, opts))
  {
    OptionsWellFormed(Defaults, opts);
  }

  /** The sample rates `main()` accepts. */
  predicate RateAccepted(rate: int)
  {
    rate == 96000 || rate == 192000 || rate == 384000 || rate == 768000
  }

  datatype RateError = NoRate | InvalidRate

  datatype RateCheck = RateOk | RateRejected(err: RateError)

  /** The two sample-rate checks of `main()`, in order: missing, then not one of the four. */
  function CheckRate(rate: int): (r: RateCheck)
    ensures r == RateOk <==> RateAccepted(rate)
    ensures r == RateRejected(NoRate) <==> rate == 0
  {
    if rate == 0 then RateRejected(NoRate)
    else if !RateAccepted(rate) then RateRejected(InvalidRate)
    else RateOk
  }

  /** Decimation factor and shift configured on the receiver. */
  datatype Decimation = Decimation(factor: int, shift: nat)

  /** The rate table; other rates keep the static initial values 2 and 2. */
  function DecimationFor(rate: int): (d: Decimation)
    ensures d.factor >= 2 && d.shift >= 1
    ensures RateAccepted(rate) ==> d.factor == Pow2(d.shift)
  {
    if rate == 96000 then Decimation(32, 5)
    else if rate == 192000 then Decimation(16, 4)
    else if rate == 384000 then Decimation(8, 3)
    else if rate == 768000 then Decimation(4, 2)
    else if rate == 1536000 then Decimation(2, 1)
    else Decimation(2, 2)
  }

  function Pow2(n: nat): (p: nat)
    ensures p >= 1
  {
    if n == 0 then 1 else 2 * Pow2(n - 1)
  }

  /**
   * `rate << rateshift`, one doubling per bit of shift: the receiver's ADC
   * sample rate, which is the rate times `2^rateshift`.
   */
  function FsHz(rate: int, shift: nat): (f: int)
    ensures f == rate * Pow2(shift)
    decreases shift
  {
    if shift == 0 then rate
    else
      var f := 2 * FsHz(rate, shift - 1);
      assert f == rate * (2 * Pow2(shift - 1));
      f
  }

  /**
   * Every accepted rate is decimated by `2^shift` from the same ADC rate of
   * 3.072 MHz, so the decimated output rate is the requested one.
   */
  lemma AcceptedRateDecimation(rate: int)
    requires RateAccepted(rate)
    ensures var d := DecimationFor(rate);
      d.factor == Pow2(d.shift) && FsHz(rate, d.shift) == 3072000 &&
      FsHz(rate, d.shift) / d.factor == rate
  {
    var d := DecimationFor(rate);
    assert Pow2(2) == 4 && Pow2(3) == 8 && Pow2(4) == 16 && Pow2(5) == 32;
  }

  /** The 1536000 entry of the table is never used: `main()` rejects that rate first. */
  lemma TableEntryUnreachable()
    ensures !RateAccepted(1536000) && CheckRate(1536000) == RateRejected(InvalidRate)
    ensures DecimationFor(1536000) == Decimation(2, 1)
  {
  }

  /** `rate / 1000` with C's division, which truncates toward zero. */
  function TimerScaling(rate: int): (r: int)
    ensures rate >= 0 ==> 0 <= r && r * 1000 <= rate < r * 1000 + 1000
    ensures rate < 0 ==> r <= 0 && r * 1000 - 1000 < rate <= r * 1000
  {
    if rate >= 0 then rate / 1000 else -((-rate) / 1000)
  }

  /**
   * For an accepted rate the sample counter threshold is exactly a thousandth
   * of the rate; the timers then tick every `rate / 1000 + 1` samples.
   */
  lemma AcceptedRateScaling(rate: int)
    requires RateAccepted(rate)
    ensures TimerScaling(rate) * 1000 == rate && TimerScaling(rate) >= 96
  {
  }

  /** The value written to the gain file: the gain reduction relative to the minimum. */
  function RelativeGain(gain: int, minGain: int): (r: int)
    ensures r == 0 <==> gain == minGain
    ensures r >= 0 <==> gain >= minGain
  {
    gain - minGain
  }

  /**
   * At start-up the gain reduction equals the minimum, so the "0" written
   * to a fresh gain file is the relative gain of the configured state.
   */
  lemma StartupRelativeGainIsZero(opts: seq<GainOption>)
    ensures var s := ApplyOptions(Defaults, opts);
      RelativeGain(s.gain, s.minGain) == 0
  {
    CommandLineWellFormed(opts);
  }

  /**
   * With a decrease step of 1, every value the gain file receives during AGC
   * operation lies between 0 and `59 - minGain`.
   */
  lemma PushedRelativeGainInRange(cfg: AgcConfig, st: AgcState, xs: seq<Short>)
    requires ValidConfig(cfg) && cfg.stepDec == 1 && StateInv(cfg, st)
    ensures var pushes := Run(cfg, st, xs).pushes;
      forall k :: 0 <= k < |pushes| ==>
        0 <= RelativeGain(pushes[k], cfg.minGain) <= GainCeiling - cfg.minGain
  {
    StepOneStaysAboveMin(cfg, st, xs);
  }

  /** The AGC configuration assembled from the options and the sample rate. */
  function AgcConfigOf(s: Settings, increaseThreshold: int, decreaseThreshold: int,
                       windowMs: int, overloadCount: int, increaseHoldMs: int,
                       decreaseHoldMs: int, rate: int): (cfg: AgcConfig)
  {
    AgcConfig(increaseThreshold, decreaseThreshold, windowMs, overloadCount,
              increaseHoldMs, decreaseHoldMs, TimerScaling(rate),
              s.minGain, s.maxGain, s.stepInc, s.stepDec)
  }

  /**
   * A command line that passes the rate check yields a configuration the
   * AGC invariants hold under, starting from the configured gain.
   */
  lemma ConfiguredAgcIsValid(opts: seq<GainOption>, a: int, b: int, c: int, x: int, y: int,
                             z: int, rate: int)
    requires CheckRate(rate) == RateOk
    ensures var s := ApplyOptions(Defaults, opts);
      var cfg := AgcConfigOf(s, a, b, c, x, y, z, rate);
      ValidConfig(cfg) && StateInv(cfg, Initial(s.gain))
  {
    CommandLineWellFormed(opts);
    AcceptedRateScaling(rate);
  }
}
