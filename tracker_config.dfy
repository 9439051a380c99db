/**
 * The filter configuration of HeadMouseTracker: the fast and power-saving presets, the
 * Python `or`-defaulting of the optional coefficients (where 0 counts as not given), the
 * `allow_override` rule, and what `set_performance_mode` does to the coefficients.
 */
module TrackerConfig {
  import opened Wrappers
  import opened OneEuro

  /** euro_freq, euro_cutoff (the filters' min_cutoff) and euro_beta. */
  datatype Coefficients = Coefficients(freq: real, cutoff: real, beta: real)

  /** Fast mode: a 200 Hz mouse thread and a responsive filter. */
  const FAST_PRESET: Coefficients := Coefficients(120.0, 0.8, 0.015)
  /** Power-saving mode: a 60 Hz mouse thread and a smoother filter. */
  const SLOW_PRESET: Coefficients := Coefficients(45.0, 1.5, 0.03)

  /** mouse_sleep in whole milliseconds: 0.005 s and 0.016 s. */
  const FAST_SLEEP_MS: nat := 5
  const SLOW_SLEEP_MS: nat := 16

  /** Both tracker filters are built with d_cutoff = 1.0. */
  const D_CUTOFF: real := 1.0

  function Preset(fast: bool): (c: Coefficients)
    ensures ValidCoefficients(c)
  {
    if fast then FAST_PRESET else SLOW_PRESET
  }

  function SleepMs(fast: bool): (ms: nat)
    ensures ms == 5 || ms == 16
    ensures fast <==> ms == 5
  {
    if fast then FAST_SLEEP_MS else SLOW_SLEEP_MS
  }

  /** Coefficients for which both filters are well defined. */
  predicate ValidCoefficients(c: Coefficients) {
    c.freq > 0.0 && c.cutoff > 0.0 && c.beta >= 0.0
  }

  /** The parameters of `OneEuroFilter(cutoff, beta, 1.0, freq)`. */
  function FilterParamsOf(c: Coefficients): (p: FilterParams)
    ensures ValidCoefficients(c) ==> ValidParams(p)
  {
    FilterParams(c.cutoff, c.beta, D_CUTOFF, c.freq)
  }

  /** Python truthiness of an optional float argument: None and 0.0 are false. */
  predicate Truthy(o: Option<real>) {
    o.Some? && o.value != 0.0
  }

  /** `value or default`. */
  function OrDefault(o: Option<real>, default: real): (r: real)
    ensures Truthy(o) ==> r == o.value
    ensures !Truthy(o) ==> r == default
  {
    if o.None? then default
    else if o.value == 0.0 then default
    else o.value
  }

  /** `any([euro_min_cutoff, euro_beta, euro_freq])`. */
  predicate UserParams(minCutoff: Option<real>, beta: Option<real>, freq: Option<real>) {
    exists o :: o in [minCutoff, beta, freq] && Truthy(o)
  }

  /** `allow_runtime_override and not user_params`. */
  predicate AllowOverride(allowRuntime: bool, minCutoff: Option<real>, beta: Option<real>,
                          freq: Option<real>) {
    allowRuntime && !UserParams(minCutoff, beta, freq)
  }

  /** Overriding is allowed exactly when asked for and no coefficient was given a nonzero value. */
  lemma AllowOverrideIff(allowRuntime: bool, minCutoff: Option<real>, beta: Option<real>,
                         freq: Option<real>)
    ensures AllowOverride(allowRuntime, minCutoff, beta, freq)
            <==> allowRuntime && !Truthy(minCutoff) && !Truthy(beta) && !Truthy(freq)
  {
    var args := [minCutoff, beta, freq];
    assert args[0] == minCutoff && args[1] == beta && args[2] == freq;
    if Truthy(minCutoff) || Truthy(beta) || Truthy(freq) {
      assert UserParams(minCutoff, beta, freq);
    }
  }

  /** A supplied coefficient is non-negative; a negative one gives no well-defined filter. */
  predicate NonNegativeArg(o: Option<real>) {
    o.None? || o.value >= 0.0
  }

  /** The coefficients the constructor stores: each argument `or` the preset of the mode. */
  function InitialCoefficients(fast: bool, minCutoff: Option<real>, beta: Option<real>,
                               freq: Option<real>): (c: Coefficients)
    ensures NonNegativeArg(minCutoff) && NonNegativeArg(beta) && NonNegativeArg(freq)
            ==> ValidCoefficients(c)
  {
    var preset := Preset(fast);
    Coefficients(OrDefault(freq, preset.freq), OrDefault(minCutoff, preset.cutoff),
                 OrDefault(beta, preset.beta))
  }

  /** Passing 0 for a coefficient is the same as not passing it, for both the stored
    * coefficients and the override permission. */
  lemma ZeroMeansNotGiven(fast: bool, allowRuntime: bool, beta: Option<real>, freq: Option<real>)
    ensures InitialCoefficients(fast, Some(0.0), beta, freq) == InitialCoefficients(fast, None, beta, freq)
    ensures AllowOverride(allowRuntime, Some(0.0), beta, freq) == AllowOverride(allowRuntime, None, beta, freq)
  {
    AllowOverrideIff(allowRuntime, Some(0.0), beta, freq);
    AllowOverrideIff(allowRuntime, None, beta, freq);
  }

  /** Every nonzero coefficient given is kept; every other one comes from the preset. */
  lemma GivenCoefficientsKept(fast: bool, minCutoff: Option<real>, beta: Option<real>,
                              freq: Option<real>)
    ensures var c := InitialCoefficients(fast, minCutoff, beta, freq);
            (c.cutoff == if Truthy(minCutoff) then minCutoff.value else Preset(fast).cutoff) &&
            (c.beta == if Truthy(beta) then beta.value else Preset(fast).beta) &&
            (c.freq == if Truthy(freq) then freq.value else Preset(fast).freq)
  {
  }

  /** When overriding is allowed the constructor has stored exactly the preset of its mode,
    * so the overrides of set_performance_mode only ever switch between presets. */
  lemma OverrideStartsFromPreset(fast: bool, allowRuntime: bool, minCutoff: Option<real>,
                                 beta: Option<real>, freq: Option<real>)
    requires AllowOverride(allowRuntime, minCutoff, beta, freq)
    ensures InitialCoefficients(fast, minCutoff, beta, freq) == Preset(fast)
  {
    AllowOverrideIff(allowRuntime, minCutoff, beta, freq);
  }

  /** The coefficients after `set_performance_mode(fast)`: the preset of the new mode when
    * overriding is allowed, the current ones otherwise. */
  function ModeSwitch(allow: bool, current: Coefficients, fast: bool): (c: Coefficients)
    ensures allow ==> c == Preset(fast)
    ensures !allow ==> c == current
  {
    if allow then Preset(fast) else current
  }

  /** Switching to fast and back to power saving with overriding allowed lands exactly on
    * the power-saving preset, whatever the coefficients were before. */
  lemma FastThenSlowRestoresSlow(current: Coefficients)
    ensures ModeSwitch(true, ModeSwitch(true, current, true), false) == SLOW_PRESET
  {
  }

  /** Without override permission no sequence of mode switches touches the coefficients. */
  lemma {:induction false} CustomCoefficientsSurvive(current: Coefficients, modes: seq<bool>)
    ensures SwitchAll(false, current, modes) == current
    decreases |modes|
  {
    if modes != [] {
      CustomCoefficientsSurvive(ModeSwitch(false, current, modes[0]), modes[1..]);
    }
  }

  /** With override permission only the last of a sequence of mode switches matters. */
  lemma {:induction false} LastSwitchWins(current: Coefficients, modes: seq<bool>)
    requires modes != []
    ensures SwitchAll(true, current, modes) == Preset(modes[|modes| - 1])
    decreases |modes|
  {
    if |modes| > 1 {
      LastSwitchWins(ModeSwitch(true, current, modes[0]), modes[1..]);
    }
  }

  /** The coefficients after a sequence of `set_performance_mode` calls. */
  function SwitchAll(allow: bool, current: Coefficients, modes: seq<bool>): Coefficients
    decreases |modes|
  {
    if modes == [] then current else SwitchAll(allow, ModeSwitch(allow, current, modes[0]), modes[1..])
  }
}
