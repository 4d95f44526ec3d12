/** Constants, per-class parameters, the trend-channel geometry and the string
    codecs of the strategy trade regions (strategy/region/region.py). */
module RegionFields {

  const VERSION: string := "1.0.0"

  /** Integer discriminators of the three region classes. */
  const REGION_UNDEFINED: int := 0
  const REGION_RANGE: int := 1
  const REGION_TREND: int := 2

  /** Signal stage a region applies to. */
  const STAGE_ENTRY: int := 1
  const STAGE_EXIT: int := -1
  const STAGE_BOTH: int := 0

  /** Signal direction a region applies to. */
  const LONG: int := 1
  const SHORT: int := -1
  const BOTH: int := 0

  /** The class of a region: the base `Region`, `RangeRegion` or `TrendRegion`. */
  datatype Kind = Undefined | Range | Trend

  /** The class-level REGION constant of each kind. */
  function Code(k: Kind): (r: int)
    ensures r in {REGION_UNDEFINED, REGION_RANGE, REGION_TREND}
    ensures KindOfCode(r) == k
  {
    match k
    case Undefined => REGION_UNDEFINED
    case Range => REGION_RANGE
    case Trend => REGION_TREND
  }

  function KindOfCode(code: int): Kind
  {
    if code == REGION_RANGE then Range
    else if code == REGION_TREND then Trend
    else Undefined
  }

  /** The class-level NAME constant of each kind. */
  function Name(k: Kind): string
  {
    match k
    case Undefined => "undefined"
    case Range => "range"
    case Trend => "channel"
  }

  /** The price parameters each kind adds to the common fields: a flat band for
      a range, two end points of a channel for a trend, plus the cancelation
      trigger price of both. */
  datatype Bounds =
    | NoBounds
    | RangeBounds(low: real, high: real, cancelation: real)
    | TrendBounds(lowA: real, highA: real, lowB: real, highB: real, cancelation: real)

  /** The parameters of a region agree with its class. */
  predicate Fits(k: Kind, b: Bounds)
  {
    match k
    case Undefined => b.NoBounds?
    case Range => b.RangeBounds?
    case Trend => b.TrendBounds?
  }

  /** True when an expiry is set (> 0) and has been reached. */
  predicate Expired(expiry: real, timestamp: real)
  {
    expiry > 0.0 && timestamp >= expiry
  }

  /** Per-second slopes of the low and high lines of a trend channel. */
  datatype Slopes = Slopes(dl: real, dh: real)

  /** The slopes `TrendRegion.init` derives from the two end points and the
      time span between creation and expiry. */
  function SlopesFor(b: Bounds, created: real, expiry: real): (s: Slopes)
    requires b.TrendBounds?
    requires expiry != created
    ensures s.dl * (expiry - created) == b.lowB - b.lowA
    ensures s.dh * (expiry - created) == b.highB - b.highA
  {
    Slopes((b.lowB - b.lowA) / (expiry - created), (b.highB - b.highA) / (expiry - created))
  }

  /** A channel line: its value at `start` time `created`, moving by `slope`
      per second. */
  function Line(slope: real, start: real, created: real, t: real): real
  {
    (t - created) * slope + start
  }

  /** The line through the two end points is the weighted blend of them, the
      weight being the elapsed fraction of the time span. */
  lemma LineIsBlend(a: real, b: real, created: real, expiry: real, t: real)
    requires expiry != created
    ensures var u := (t - created) / (expiry - created);
            Line((b - a) / (expiry - created), a, created, t) == (1.0 - u) * a + u * b
  {
    var span := expiry - created;
    var u := (t - created) / span;
    assert t - created == u * span;
    calc {
      Line((b - a) / span, a, created, t);
      (u * span) * ((b - a) / span) + a;
      u * (span * ((b - a) / span)) + a;
      { assert span * ((b - a) / span) == b - a; }
      u * (b - a) + a;
      (1.0 - u) * a + u * b;
    }
  }

  /** The channel lines pass through the end points: the `a` prices at
      creation and the `b` prices at expiry. */
  lemma ChannelEndpoints(b: Bounds, created: real, expiry: real)
    requires b.TrendBounds?
    requires expiry != created
    ensures var s := SlopesFor(b, created, expiry);
            && Line(s.dl, b.lowA, created, created) == b.lowA
            && Line(s.dh, b.highA, created, created) == b.highA
            && Line(s.dl, b.lowA, created, expiry) == b.lowB
            && Line(s.dh, b.highA, created, expiry) == b.highB
  {
    LineIsBlend(b.lowA, b.lowB, created, expiry, expiry);
    LineIsBlend(b.highA, b.highB, created, expiry, expiry);
  }

  /** Multiplying by a non-negative factor keeps an order. */
  lemma ScaleMonotone(k: real, x: real, y: real)
    requires 0.0 <= k && x <= y
    ensures k * x <= k * y
  {
    assert k * y - k * x == k * (y - x);
  }

  /** A product of two positive numbers is positive. */
  lemma ScalePositive(k: real, x: real)
    requires 0.0 < k && 0.0 < x
    ensures 0.0 < k * x
  {
  }

  /** Multiplying by a positive factor keeps a strict order. */
  lemma ScaleStrict(k: real, x: real, y: real)
    requires 0.0 < k && x < y
    ensures k * x < k * y
  {
    ScalePositive(k, y - x);
    assert k * y - k * x == k * (y - x);
  }

  /** The elapsed fraction of a time span lies in [0, 1]. */
  lemma ElapsedFraction(created: real, expiry: real, t: real)
    requires created < expiry && created <= t <= expiry
    ensures 0.0 <= (t - created) / (expiry - created) <= 1.0
  {
    var span := expiry - created;
    var u := (t - created) / span;
    assert span * u == t - created;
    assert 0.0 <= u by {
      if u < 0.0 {
        ScaleStrict(span, u, 0.0);
        assert false;
      }
    }
    assert u <= 1.0 by {
      if u > 1.0 {
        ScaleStrict(span, 1.0, u);
        assert false;
      }
    }
  }

  /** A weighted blend with weight in [0, 1] of two positive prices is positive,
      and blending preserves the order of two pairs. */
  lemma BlendBounds(u: real, la: real, lb: real, ha: real, hb: real)
    requires 0.0 <= u <= 1.0
    requires 0.0 < la <= ha && 0.0 < lb <= hb
    ensures 0.0 < (1.0 - u) * la + u * lb
    ensures (1.0 - u) * la + u * lb <= (1.0 - u) * ha + u * hb
  {
    var w := 1.0 - u;
    var wla, ulb, wha, uhb := w * la, u * lb, w * ha, u * hb;
    ScaleMonotone(w, la, ha);
    ScaleMonotone(u, lb, hb);
    ScaleMonotone(u, 0.0, lb);
    ScaleMonotone(w, 0.0, la);
    assert 0.0 <= wla <= wha && 0.0 <= ulb <= uhb;
    assert 0.0 < wla || 0.0 < ulb by {
      if u < 1.0 {
        ScalePositive(w, la);
      } else {
        assert ulb == lb;
      }
    }
    assert 0.0 < wla + ulb <= wha + uhb;
  }

  /** Between creation and expiry the channel of a trend region whose end points
      pass `check` is never empty and lies above zero. */
  lemma ChannelOrdered(b: Bounds, created: real, expiry: real, t: real)
    requires b.TrendBounds?
    requires 0.0 < b.lowA <= b.highA && 0.0 < b.lowB <= b.highB
    requires created < expiry
    requires created <= t <= expiry
    ensures var s := SlopesFor(b, created, expiry);
            0.0 < Line(s.dl, b.lowA, created, t) <= Line(s.dh, b.highA, created, t)
  {
    var u := (t - created) / (expiry - created);
    ElapsedFraction(created, expiry, t);
    LineIsBlend(b.lowA, b.lowB, created, expiry, t);
    LineIsBlend(b.highA, b.highB, created, expiry, t);
    BlendBounds(u, b.lowA, b.lowB, b.highA, b.highB);
  }

  /** `stage_to_str`: the label of a stage; an unknown stage reads as "both". */
  function StageToStr(stage: int): (r: string)
    ensures r in {"entry", "exit", "both"}
    ensures StageFromStr(r) == if stage in {STAGE_ENTRY, STAGE_EXIT} then stage else STAGE_BOTH
  {
    if stage == STAGE_ENTRY then "entry"
    else if stage == STAGE_EXIT then "exit"
    else if stage == STAGE_BOTH then "both"
    else "both"
  }

  /** `stage_from_str`: the stage of a label; an unknown label is BOTH. */
  function StageFromStr(s: string): (r: int)
    ensures r in {STAGE_ENTRY, STAGE_EXIT, STAGE_BOTH}
    ensures s !in {"entry", "exit"} ==> r == STAGE_BOTH
  {
    if s == "entry" then STAGE_ENTRY
    else if s == "exit" then STAGE_EXIT
    else if s == "both" then STAGE_BOTH
    else STAGE_BOTH
  }

  /** `direction_to_str`: the label of a direction; an unknown one reads as "both". */
  function DirectionToStr(dir: int): (r: string)
    ensures r in {"long", "short", "both"}
    ensures r == "long" <==> dir == LONG
    ensures r == "short" <==> dir == SHORT
  {
    if dir == LONG then "long"
    else if dir == SHORT then "short"
    else if dir == BOTH then "both"
    else "both"
  }

  /** The stage codecs are inverse on the three stages and on the three labels. */
  lemma StageCodecRoundTrip(stage: int, s: string)
    ensures stage in {STAGE_ENTRY, STAGE_EXIT, STAGE_BOTH} ==> StageFromStr(StageToStr(stage)) == stage
    ensures s in {"entry", "exit", "both"} ==> StageToStr(StageFromStr(s)) == s
  {
  }
}
