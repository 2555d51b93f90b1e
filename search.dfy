/** `find_optimal_font_size`: a binary search over the body font sizes,
    bounded to ten probes, that falls back to the smallest size. */
module FontSearch {
  import opened Common
  import opened Height

  /** The height measured for each font size (an error when the font
      cannot be loaded). */
  type Probe = int -> Result<real>

  /** The outcome of a search and the sizes it probed, in order. */
  datatype Trace = Trace(outcome: Result<int>, probed: seq<int>)

  /** The number of loop iterations, `range(10)`. */
  const MaxProbes: nat := 10

  /** The probed height at `size` fits within `maxHeight`. */
  predicate Admits(probe: Probe, maxHeight: real, size: int) {
    probe(size).Ok? && probe(size).value <= maxHeight
  }

  /** The search from state (`low`, `high`, `best`) with `rounds` iterations
      left: stop once `low > high`, otherwise probe the midpoint and keep
      the upper half if it fits (recording it as best), else the lower half.
      A failed probe ends the search with its error. */
  function Search(probe: Probe, maxHeight: real, low: int, high: int, best: int, rounds: nat): Trace
    decreases rounds
  {
    if rounds == 0 || low > high then Trace(Ok(best), [])
    else
      var mid := (low + high) / 2;
      match probe(mid)
      case Err(e) => Trace(Err(e), [mid])
      case Ok(h) =>
        var rest := if h <= maxHeight then Search(probe, maxHeight, mid + 1, high, mid, rounds - 1)
                    else Search(probe, maxHeight, low, mid - 1, best, rounds - 1);
        Trace(rest.outcome, [mid] + rest.probed)
  }

  /** `calculate_content_height(content, size, max_width)` as a probe. */
  function HeightProbe(cfg: Config, load: FontLoader, content: string, maxWidth: int): Probe {
    size => ContentHeight(cfg, load, content, size, maxWidth)
  }

  /** The search `find_optimal_font_size` runs. */
  function OptimalFontSize(cfg: Config, load: FontLoader, content: string, maxWidth: int, maxHeight: real): Trace {
    Search(HeightProbe(cfg, load, content, maxWidth), maxHeight,
           cfg.contentFontSizeMin, cfg.contentFontSizeMax, cfg.contentFontSizeMin, MaxProbes)
  }

  /** A round whose probe fails ends the search with the probe's error,
      after probing only the midpoint. */
  lemma SearchFails(probe: Probe, maxHeight: real, low: int, high: int, best: int, rounds: nat, e: Error)
    requires rounds > 0 && low <= high && probe((low + high) / 2) == Err(e)
    ensures Search(probe, maxHeight, low, high, best, rounds) == Trace(Err(e), [(low + high) / 2])
  {
  }

  /** A round whose probe succeeds probes the midpoint first and continues
      above it with the midpoint as the best size when it fits, below it
      otherwise. */
  lemma SearchStep(probe: Probe, maxHeight: real, low: int, high: int, best: int, rounds: nat,
                   h: real, low': int, high': int, best': int)
    requires rounds > 0 && low <= high && probe((low + high) / 2) == Ok(h)
    requires h <= maxHeight ==> low' == (low + high) / 2 + 1 && high' == high && best' == (low + high) / 2
    requires h > maxHeight ==> low' == low && high' == (low + high) / 2 - 1 && best' == best
    ensures var rest := Search(probe, maxHeight, low', high', best', rounds - 1);
            Search(probe, maxHeight, low, high, best, rounds) == Trace(rest.outcome, [(low + high) / 2] + rest.probed)
  {
  }

  /** A probe of the height probe is the estimator at that size. */
  lemma ProbeAt(cfg: Config, load: FontLoader, content: string, maxWidth: int, size: int)
    ensures HeightProbe(cfg, load, content, maxWidth)(size) == ContentHeight(cfg, load, content, size, maxWidth)
  {
  }

  /** Moving a probed size from the front of the pending trace to the end
      of the log keeps the whole log. */
  lemma LogStep(log: seq<int>, mid: int, rest: seq<int>, all: seq<int>)
    requires log + ([mid] + rest) == all
    ensures (log + [mid]) + rest == all
  {
    assert log + ([mid] + rest) == (log + [mid]) + rest;
  }

  /** `find_optimal_font_size`. The ghost `probed` records, in order, the
      font sizes it passes to `calculate_content_height`. */
  method FindOptimalFontSize(cfg: Config, load: FontLoader, content: string, maxWidth: int, maxHeight: real)
    returns (r: Result<int>, ghost probed: seq<int>)
    ensures r == OptimalFontSize(cfg, load, content, maxWidth, maxHeight).outcome
    ensures probed == OptimalFontSize(cfg, load, content, maxWidth, maxHeight).probed
  {
    ghost var probe := HeightProbe(cfg, load, content, maxWidth);
    ghost var target := OptimalFontSize(cfg, load, content, maxWidth, maxHeight);
    probed := [];
    var low := cfg.contentFontSizeMin;
    var high := cfg.contentFontSizeMax;
    var bestSize := low;
    ghost var pending := target;
    for round := 0 to MaxProbes
      invariant pending == Search(probe, maxHeight, low, high, bestSize, MaxProbes - round)
      invariant pending.outcome == target.outcome && probed + pending.probed == target.probed
    {
      if low > high {
        break;
      }
      var mid := (low + high) / 2;
      ghost var before, low0, high0, best0 := probed, low, high, bestSize;
      probed := probed + [mid];
      var contentHeight := CalculateContentHeight(cfg, load, content, mid, maxWidth);
      ProbeAt(cfg, load, content, maxWidth, mid);
      if contentHeight.Err? {
        SearchFails(probe, maxHeight, low, high, bestSize, MaxProbes - round, contentHeight.error);
        return Err(contentHeight.error), probed;
      }
      if contentHeight.value <= maxHeight {
        bestSize := mid;
        low := mid + 1;
      } else {
        high := mid - 1;
      }
      ghost var rest := Search(probe, maxHeight, low, high, bestSize, MaxProbes - round - 1);
      SearchStep(probe, maxHeight, low0, high0, best0, MaxProbes - round, contentHeight.value, low, high, bestSize);
      LogStep(before, mid, rest.probed, target.probed);
      pending := rest;
    }
    r := Ok(bestSize);
  }

  /** The search probes at most `rounds` sizes, all inside any [lo, hi]
      holding the initial range; it returns `best` or a probed size whose
      height fitted, and a failed search fails with its last probe's error. */
  lemma {:induction false} SearchFacts(probe: Probe, maxHeight: real, lo: int, hi: int,
                                       low: int, high: int, best: int, rounds: nat)
    requires lo <= low && high <= hi
    ensures var t := Search(probe, maxHeight, low, high, best, rounds);
            |t.probed| <= rounds
            && (forall i :: 0 <= i < |t.probed| ==> lo <= t.probed[i] <= hi)
            && (t.outcome.Ok? ==>
                  t.outcome.value == best
                  || (t.outcome.value in t.probed && Admits(probe, maxHeight, t.outcome.value)))
            && (t.outcome.Err? ==>
                  t.probed != [] && probe(t.probed[|t.probed| - 1]) == Err(t.outcome.error))
    decreases rounds
  {
    if rounds > 0 && low <= high {
      var mid := (low + high) / 2;
      if probe(mid).Ok? {
        var fits := probe(mid).value <= maxHeight;
        var low', high', best' := if fits then mid + 1 else low, if fits then high else mid - 1, if fits then mid else best;
        SearchFacts(probe, maxHeight, lo, hi, low', high', best', rounds - 1);
        var rest := Search(probe, maxHeight, low', high', best', rounds - 1);
        var t := Search(probe, maxHeight, low, high, best, rounds);
        assert t == Trace(rest.outcome, [mid] + rest.probed);
        assert forall i :: 0 < i < |t.probed| ==> t.probed[i] == rest.probed[i - 1];
        assert rest.outcome.Ok? && rest.outcome.value in rest.probed ==> rest.outcome.value in t.probed;
        assert t.outcome.Ok? && t.outcome.value == best' ==> t.outcome.value == best || t.outcome.value == mid;
      }
    }
  }

  /** `find_optimal_font_size` makes at most ten height probes, all within
      [min, max], and probes nothing when min > max; its result is min or a
      probed size whose height fitted, so it lies in [min, max] whenever that
      range is not empty; it fails only when loading the font for a probed
      size failed, with that size. */
  lemma FindOptimalFontSizeBounds(cfg: Config, load: FontLoader, content: string, maxWidth: int, maxHeight: real)
    ensures var t := OptimalFontSize(cfg, load, content, maxWidth, maxHeight);
            var lo, hi := cfg.contentFontSizeMin, cfg.contentFontSizeMax;
            |t.probed| <= 10
            && (forall i :: 0 <= i < |t.probed| ==> lo <= t.probed[i] <= hi)
            && (lo > hi ==> t == Trace(Ok(lo), []))
            && (t.outcome.Ok? ==>
                  t.outcome.value == lo
                  || (t.outcome.value in t.probed
                      && ContentHeight(cfg, load, content, t.outcome.value, maxWidth).Ok?
                      && ContentHeight(cfg, load, content, t.outcome.value, maxWidth).value <= maxHeight))
            && (t.outcome.Ok? && lo <= hi ==> lo <= t.outcome.value <= hi)
            && (t.outcome.Err? ==>
                  t.probed != [] && load(t.probed[|t.probed| - 1]).None?
                  && t.outcome.error == InvalidFontSize(t.probed[|t.probed| - 1]))
  {
    var probe := HeightProbe(cfg, load, content, maxWidth);
    var lo, hi := cfg.contentFontSizeMin, cfg.contentFontSizeMax;
    var t := OptimalFontSize(cfg, load, content, maxWidth, maxHeight);
    assert t == Search(probe, maxHeight, lo, hi, lo, MaxProbes);
    SearchFacts(probe, maxHeight, lo, hi, lo, hi, lo, MaxProbes);
    if t.outcome.Err? {
      var last := t.probed[|t.probed| - 1];
      ProbeAt(cfg, load, content, maxWidth, last);
      ContentHeightCases(cfg, load, content, last, maxWidth);
    }
    if t.outcome.Ok? && t.outcome.value != lo {
      ProbeAt(cfg, load, content, maxWidth, t.outcome.value);
      var k :| 0 <= k < |t.probed| && t.probed[k] == t.outcome.value;
    }
  }

  function Pow2(n: nat): nat {
    if n == 0 then 1 else 2 * Pow2(n - 1)
  }

  /** No probe in [lo, hi] fails. */
  predicate NoErrors(probe: Probe, lo: int, hi: int) {
    forall s :: lo <= s <= hi ==> probe(s).Ok?
  }

  /** Measured heights do not decrease as the size grows. */
  predicate HeightMonotone(probe: Probe, lo: int, hi: int) {
    NoErrors(probe, lo, hi)
    && forall a, b :: lo <= a <= b <= hi ==> probe(a).Ok? && probe(b).Ok? && probe(a).value <= probe(b).value
  }

  /** Below a size that fits, every size fits. */
  predicate FitsDownward(probe: Probe, maxHeight: real, lo: int, hi: int) {
    forall a, b :: lo <= a <= b <= hi && Admits(probe, maxHeight, b) ==> Admits(probe, maxHeight, a)
  }

  /** `v` is the largest size in [lo, hi] that fits, or `lo` when none fits. */
  predicate LargestFit(probe: Probe, maxHeight: real, lo: int, hi: int, v: int) {
    (lo <= v <= hi && Admits(probe, maxHeight, v) && forall s :: v < s <= hi ==> !Admits(probe, maxHeight, s))
    || (v == lo && forall s :: lo <= s <= hi ==> !Admits(probe, maxHeight, s))
  }

  lemma MonotoneFitsDownward(probe: Probe, maxHeight: real, lo: int, hi: int)
    requires HeightMonotone(probe, lo, hi)
    ensures FitsDownward(probe, maxHeight, lo, hi)
  {
    forall a, b | lo <= a <= b <= hi && Admits(probe, maxHeight, b) ensures Admits(probe, maxHeight, a) {
      assert probe(a).value <= probe(b).value;
    }
  }

  /** The loop keeps: every size below `low` fits, no size above `high`
      fits, `best` is the last size that fitted (or `lo`), and the open range
      is narrower than 2^rounds. Then the search ends with the largest size
      that fits. */
  lemma {:induction false} SearchFindsLargest(probe: Probe, maxHeight: real, lo: int, hi: int,
                                              low: int, high: int, best: int, rounds: nat)
    requires NoErrors(probe, lo, hi) && FitsDownward(probe, maxHeight, lo, hi)
    requires lo <= low <= high + 1 && high <= hi
    requires forall s :: lo <= s < low ==> Admits(probe, maxHeight, s)
    requires forall s :: high < s <= hi ==> !Admits(probe, maxHeight, s)
    requires best == if low == lo then lo else low - 1
    requires high - low + 1 < Pow2(rounds)
    ensures var t := Search(probe, maxHeight, low, high, best, rounds);
            t.outcome.Ok? && LargestFit(probe, maxHeight, lo, hi, t.outcome.value)
    decreases rounds
  {
    if rounds == 0 || low > high {
      assert low == high + 1;
      if low > lo {
        assert Admits(probe, maxHeight, low - 1);
      }
    } else {
      var mid := (low + high) / 2;
      assert probe(mid).Ok?;
      assert Pow2(rounds) == 2 * Pow2(rounds - 1);
      if Admits(probe, maxHeight, mid) {
        forall s | lo <= s < mid + 1 ensures Admits(probe, maxHeight, s) {
          if s >= low {
            assert lo <= s <= mid <= hi;
          }
        }
        SearchFindsLargest(probe, maxHeight, lo, hi, mid + 1, high, mid, rounds - 1);
      } else {
        forall s | mid - 1 < s <= hi ensures !Admits(probe, maxHeight, s) {
          if s <= high {
            assert lo <= mid <= s <= hi;
            assert Admits(probe, maxHeight, s) ==> Admits(probe, maxHeight, mid);
          }
        }
        SearchFindsLargest(probe, maxHeight, lo, hi, low, mid - 1, best, rounds - 1);
      }
    }
  }

  /** When heights grow with the size and [min, max] holds at most 1023
      sizes, `find_optimal_font_size` returns the largest size whose height
      fits, or min when none fits. */
  lemma FindOptimalFontSizeIsLargestFit(cfg: Config, load: FontLoader, content: string, maxWidth: int, maxHeight: real)
    requires HeightMonotone(HeightProbe(cfg, load, content, maxWidth), cfg.contentFontSizeMin, cfg.contentFontSizeMax)
    requires cfg.contentFontSizeMax - cfg.contentFontSizeMin + 1 <= 1023
    ensures var t := OptimalFontSize(cfg, load, content, maxWidth, maxHeight);
            t.outcome.Ok?
            && LargestFit(HeightProbe(cfg, load, content, maxWidth), maxHeight,
                          cfg.contentFontSizeMin, cfg.contentFontSizeMax, t.outcome.value)
  {
    var probe := HeightProbe(cfg, load, content, maxWidth);
    var lo, hi := cfg.contentFontSizeMin, cfg.contentFontSizeMax;
    if lo > hi {
      assert OptimalFontSize(cfg, load, content, maxWidth, maxHeight) == Trace(Ok(lo), []);
    } else {
      MonotoneFitsDownward(probe, maxHeight, lo, hi);
      assert Pow2(MaxProbes) == 1024;
      SearchFindsLargest(probe, maxHeight, lo, hi, lo, hi, lo, MaxProbes);
    }
  }

  /** When every size in [lo, hi] fits, the largest fit is hi. */
  lemma LargestFitAll(probe: Probe, maxHeight: real, lo: int, hi: int, v: int)
    requires lo <= hi
    requires forall s :: lo <= s <= hi ==> Admits(probe, maxHeight, s)
    requires LargestFit(probe, maxHeight, lo, hi, v)
    ensures v == hi
  {
    assert Admits(probe, maxHeight, lo);
    assert v < hi ==> lo <= v && Admits(probe, maxHeight, v + 1);
  }

  lemma SearchAllFit(probe: Probe, maxHeight: real, lo: int, hi: int)
    requires lo <= hi <= lo + 1022
    requires forall s :: lo <= s <= hi ==> Admits(probe, maxHeight, s)
    ensures Search(probe, maxHeight, lo, hi, lo, MaxProbes).outcome == Ok(hi)
  {
    assert NoErrors(probe, lo, hi) by {
      forall s | lo <= s <= hi ensures probe(s).Ok? {
        assert Admits(probe, maxHeight, s);
      }
    }
    assert FitsDownward(probe, maxHeight, lo, hi) by {
      forall a, b | lo <= a <= b <= hi && Admits(probe, maxHeight, b) ensures Admits(probe, maxHeight, a) {
      }
    }
    assert Pow2(MaxProbes) == 1024;
    SearchFindsLargest(probe, maxHeight, lo, hi, lo, hi, lo, MaxProbes);
    LargestFitAll(probe, maxHeight, lo, hi, Search(probe, maxHeight, lo, hi, lo, MaxProbes).outcome.value);
  }

  /** With the shipped range 20..40, when every size fits the result is 40. */
  lemma FindOptimalFontSizeAllFit(load: FontLoader, content: string, maxWidth: int, maxHeight: real)
    requires forall s :: 20 <= s <= 40 ==> Admits(HeightProbe(DefaultConfig, load, content, maxWidth), maxHeight, s)
    ensures OptimalFontSize(DefaultConfig, load, content, maxWidth, maxHeight).outcome == Ok(40)
  {
    SearchAllFit(HeightProbe(DefaultConfig, load, content, maxWidth), maxHeight, 20, 40);
  }

  /** With the shipped range 20..40, when the font loads at every size but
      no size fits, the result degrades to 20. */
  lemma FindOptimalFontSizeNoneFit(load: FontLoader, content: string, maxWidth: int, maxHeight: real)
    requires forall s :: 20 <= s <= 40 ==>
               var probe := HeightProbe(DefaultConfig, load, content, maxWidth);
               probe(s).Ok? && !Admits(probe, maxHeight, s)
    ensures OptimalFontSize(DefaultConfig, load, content, maxWidth, maxHeight).outcome == Ok(20)
  {
    var probe := HeightProbe(DefaultConfig, load, content, maxWidth);
    assert Pow2(MaxProbes) == 1024;
    SearchFindsLargest(probe, maxHeight, 20, 40, 20, 40, 20, MaxProbes);
  }
}
