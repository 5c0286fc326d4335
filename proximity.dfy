/**
 * The bottom-proximity decision of `useInfiniteScrolling`: the configured gap,
 * its clamping to zero, and the test the scroll handler applies to the
 * element's measurements on every scroll event.
 *
 * `scrollTop` is a real number (browsers report fractional offsets), while
 * `clientHeight` and `scrollHeight` are whole numbers, as the DOM rounds them.
 * The configured gap is any number. Arithmetic is exact.
 */
module Proximity {
  import opened Optional

  /** The hook's configuration object. */
  datatype Config = Config(gap: real)

  /** The configuration used when the caller passes none. */
  const DefaultConfig: Config := Config(0.0)

  /** The element's three measurements, read when a scroll event is handled. */
  datatype Metrics = Metrics(scrollTop: real, clientHeight: int, scrollHeight: int)

  /** The optional `config` argument with its default applied. */
  function ResolveConfig(config: Option<Config>): (c: Config)
    ensures config.None? ==> c.gap == 0.0
    ensures config.Some? ==> c == config.value
  {
    config.GetOr(DefaultConfig)
  }

  /** `Math.max(0, gap)`: the gap the handler actually uses. */
  function EffectiveGap(gap: real): (g: real)
    ensures 0.0 <= g && gap <= g
    ensures g == 0.0 || g == gap
  {
    if gap < 0.0 then 0.0 else gap
  }

  /** `Math.ceil`: the least integer not below `x`. */
  function Ceil(x: real): (c: int)
    ensures x <= c as real < x + 1.0
  {
    if x.Floor as real == x then x.Floor else x.Floor + 1
  }

  /**
   * The scroll handler's test, for an effective gap `gap`: the offset is
   * truthy (non-zero) and the visible height reaches the content height
   * less the rounded-up offset and the gap.
   */
  predicate IsAtBottom(m: Metrics, gap: real): (r: bool)
    ensures m.scrollTop == 0.0 ==> !r
    ensures m.scrollTop != 0.0 && DistanceToBottom(m) <= gap ==> r
    ensures r ==> DistanceToBottom(m) < gap + 1.0
  {
    m.scrollTop != 0.0 &&
    m.clientHeight as real >= (m.scrollHeight - Ceil(m.scrollTop)) as real - gap
  }

  /** Whether a handler set up with the optional `config` calls `onBottomHit` for `m`. */
  predicate HandlerFires(m: Metrics, config: Option<Config>): (r: bool)
    ensures r ==> m.scrollTop != 0.0
    ensures ResolveConfig(config).gap <= 0.0 ==> (r <==> IsAtBottom(m, 0.0))
  {
    IsAtBottom(m, EffectiveGap(ResolveConfig(config).gap))
  }

  /** The remaining distance to the bottom edge, as the configuration's doc comment measures it. */
  function DistanceToBottom(m: Metrics): real {
    (m.scrollHeight - m.clientHeight) as real - m.scrollTop
  }

  /** An offset of exactly zero never fires, whatever the heights and the gap. */
  lemma ZeroOffsetNeverFires(m: Metrics, config: Option<Config>)
    requires m.scrollTop == 0.0
    ensures !HandlerFires(m, config)
  {
  }

  /**
   * An independent description of the rule: with effective gap `g`, a
   * non-zero offset fires exactly when it lies above
   * `scrollHeight - clientHeight - floor(g) - 1`.
   */
  lemma FiresIffPastThreshold(m: Metrics, config: Option<Config>)
    ensures HandlerFires(m, config) <==>
      m.scrollTop != 0.0 &&
      m.scrollTop > (m.scrollHeight - m.clientHeight - EffectiveGap(ResolveConfig(config).gap).Floor - 1) as real
  {
    var g := EffectiveGap(ResolveConfig(config).gap);
    var c := Ceil(m.scrollTop);
    var n := m.scrollHeight - m.clientHeight - g.Floor;
    // the inequality reads c + g >= scrollHeight - clientHeight; since c is whole,
    // that is c >= n, and for the least integer above the offset, m.scrollTop > n - 1
    assert (m.clientHeight as real >= (m.scrollHeight - c) as real - g) <==> c >= n by {
      assert g.Floor as real <= g < g.Floor as real + 1.0;
    }
    assert c >= n <==> m.scrollTop > (n - 1) as real;
  }

  /** A negative configured gap behaves exactly like a gap of zero. */
  lemma NegativeGapActsAsZero(m: Metrics, gap: real)
    requires gap < 0.0
    ensures HandlerFires(m, Some(Config(gap))) == HandlerFires(m, Some(Config(0.0)))
  {
  }

  /** Omitting the configuration is the same as passing `{ gap: 0 }`. */
  lemma OmittedConfigActsAsZeroGap(m: Metrics)
    ensures HandlerFires(m, None) == HandlerFires(m, Some(Config(0.0)))
  {
  }

  /** A larger gap never turns a firing event into a silent one. */
  lemma MonotoneInGap(m: Metrics, small: real, large: real)
    requires small <= large
    requires HandlerFires(m, Some(Config(small)))
    ensures HandlerFires(m, Some(Config(large)))
  {
  }

  /** Scrolling further down from a positive offset that fires keeps firing. */
  lemma MonotoneInOffset(m: Metrics, config: Option<Config>, further: real)
    requires 0.0 < m.scrollTop <= further
    requires HandlerFires(m, config)
    ensures HandlerFires(m.(scrollTop := further), config)
  {
    FiresIffPastThreshold(m, config);
    FiresIffPastThreshold(m.(scrollTop := further), config);
  }

  /**
   * The configuration's promise: once the distance to the bottom is at most
   * the effective gap, a non-zero offset fires. Rounding the offset up can
   * only bring the trigger forward, never delay it.
   */
  lemma RoundingUpFiresEarly(m: Metrics, config: Option<Config>)
    requires m.scrollTop != 0.0
    requires DistanceToBottom(m) <= EffectiveGap(ResolveConfig(config).gap)
    ensures HandlerFires(m, config)
  {
  }

  /** Conversely, the rounding lets it fire less than one unit before that distance is reached. */
  lemma FiringIsWithinOneUnit(m: Metrics, config: Option<Config>)
    requires HandlerFires(m, config)
    ensures m.scrollTop != 0.0
    ensures DistanceToBottom(m) < EffectiveGap(ResolveConfig(config).gap) + 1.0
  {
  }

  /**
   * Where the code departs from the configuration's doc comment: at offset
   * zero the guard on `scrollTop` keeps the callback silent even though the
   * distance to the bottom is within the gap.
   */
  lemma ZeroOffsetWithinGapIsSilent()
    ensures DistanceToBottom(Metrics(0.0, 1000, 1050)) <= EffectiveGap(100.0)
    ensures !HandlerFires(Metrics(0.0, 1000, 1050), Some(Config(100.0)))
  {
  }

  /** A fractional offset short of the exact bottom already fires. */
  lemma FractionalOffsetFiresEarly()
    ensures DistanceToBottom(Metrics(999.5, 1000, 2000)) > 0.0
    ensures HandlerFires(Metrics(999.5, 1000, 2000), None)
  {
  }

  /**
   * The test suite's cases, with a 1000-unit visible height over 2000 units
   * of content.
   */
  lemma BoundaryCases()
    ensures HandlerFires(Metrics(1000.0, 1000, 2000), None)
    ensures HandlerFires(Metrics(900.0, 1000, 2000), Some(Config(100.0)))
    ensures !HandlerFires(Metrics(999.0, 1000, 2000), None)
    ensures !HandlerFires(Metrics(899.0, 1000, 2000), Some(Config(100.0)))
    ensures HandlerFires(Metrics(1000.0, 1000, 2000), Some(Config(-100.0)))
  {
  }
}
