# Strategy regions and Bitcoin Alpha sub-strategy B, in Dafny

This project models two parts of the strategy layer of a trading engine:

- **Trade regions** (`strategy/region/region.py`). A region is a time- and price-bounded
  constraint that a strategy signal must pass before it is acted on. Every region has an
  id, a creation time, a stage (entry, exit or both), a direction (long, short or both),
  an expiry and a timeframe. A *range* region adds a flat price band and a cancelation
  price. A *trend* region adds a channel between two end points, one at creation and one
  at expiry. A region is validated by `check` and filters signals through `test_region`.
  The owner removes it once `can_delete` holds. A region is persisted with
  `dumps`/`loads`.
- **Sub-strategy B of the Bitcoin Alpha strategy** (`strategy/bitcoinalpha/bcasubb.py`).
  On each tick it turns indicator readings into at most one exit signal. A trend
  classification from EMA against SMA and RSI comes first. A Tom DeMark setup rule then
  overrides it. Repeated signals for the same candle are dropped. A cursor into the candle
  stream advances, and a streaming hook sends the latest candles to a monitor.

Files:

- `outcomes.dfy`: `Option` and `Result`.
- `signal.dfy`: the strategy signal (kind, direction, timeframe, timestamp, price). Its
  base-time bucket is a function passed in as a parameter.
- `region_fields.dfy`: the region constants, the per-class parameters (`Bounds`), the
  channel geometry and the stage and direction string codecs.
- `region_persist.dfy`: the persisted mapping, `Dump`/`Load` and their round trip.
- `region.dfy`: class `Region`. It is one class for the three Python classes, tagged by
  `kind`. Its fields are updated in place by `SetId`, `SetExpiry`, `Init` and `Loads`.
- `bcasubb.dfy`: the decision functions, class `SubB` (`Process1`, `Process`, `Stream`)
  and the streamer it feeds.
- `ticks.dfy`: the duplicate filter over a run of ticks.

Prices, RSI values, timestamps and timeframes are `real`. Python's floats are not modelled
bit for bit. An exception that the source raises during `test_region` becomes an `Err`:

- `MissingSlopes`: a trend region whose slopes were never computed by `init`.
- `TimeframeUnset`: a region whose timeframe `loads` left as `None`.

Points of the code's behaviour worth knowing:

- For a Tom DeMark count of 3 to 5, the code exits the longs when the setup direction is
  positive and the shorts when it is negative.
- `loads(dumps(r))` does not restore a trend region's slopes (`_dl`, `_dh`).
  `Region.Loads` leaves them as they were. A trend region rebuilt from its mapping
  without `init` therefore fails its test with `MissingSlopes`.
- `can_delete` with the default cancelation price 0.0 deletes a short region on any
  positive bid, although the docstring at `strategy/region/region.py:288-291` says that a
  region without a trigger is never deleted this way. The contract of
  `Regions.Region.CanDelete` states the code's behaviour.

## Model

| member | source | states |
|---|---|---|
| `RegionFields.Code` | strategy/region/region.py:19-21 | each class has its own integer discriminator, and the discriminator identifies the class |
| `RegionFields.SlopesFor` | strategy/region/region.py:390-391 | each slope times the time span from creation to expiry equals the price change between the two end points |
| `RegionFields.ChannelEndpoints` | strategy/region/region.py:408-417 | the interpolated low and high lines equal the `a` prices at creation and the `b` prices at expiry |
| `RegionFields.ChannelOrdered` | strategy/region/region.py:393-406 | end points accepted by the trend check give a channel with 0 < low(t) <= high(t) at every time between creation and expiry |
| `RegionFields.StageToStr` | strategy/region/region.py:224-232 | a stage label is "entry", "exit" or "both", and it decodes back to the stage (any unknown stage reads as BOTH) |
| `RegionFields.StageFromStr` | strategy/region/region.py:234-242 | decoding always yields one of the three stages, and an unknown label yields BOTH |
| `RegionFields.DirectionToStr` | strategy/region/region.py:244-252 | a direction label is "long" exactly for LONG and "short" exactly for SHORT; everything else is "both" |
| `RegionFields.StageCodecRoundTrip` | strategy/region/region.py:224-242 | the stage codecs are inverse on the three stages and on the three labels |
| `RegionPersist.DefaultBounds` | strategy/region/region.py:297-303 | a fresh region's price parameters match its class, and every price and the cancelation price are 0.0 |
| `RegionPersist.LoadBounds` | strategy/region/region.py:358-364 | the parameters read from a mapping match the class; each price is read as `get(key, 0.0)` reads it: 0.0 on its own when its key is missing, and a stored number (integer or float) as the same number |
| `RegionPersist.Dump` | strategy/region/region.py:197-211 | the mapping has exactly the common keys plus the class's own keys, carries the version, class code and name, and loads back to the same fields |
| `RegionPersist.Load` | strategy/region/region.py:213-222 | missing keys take the source's defaults: id -1, created 0, stage BOTH, direction BOTH, expiry 0; a missing timeframe stays unset; a stored id, stage or direction is taken as it is, and a stored created, expiry or timeframe (integer or float) as the same number; the prices are read as `LoadBounds` reads them |
| `RegionPersist.DumpedKind` | strategy/region/region.py:201-204 | the stored class code decodes to the kind that wrote the mapping |
| `Regions.Region.constructor` | strategy/region/region.py:34-40 | a new region has no id (-1), never expires (0), has the given creation, stage, direction and timeframe, default prices and no slopes |
| `Regions.Region.SetId` | strategy/region/region.py:107-108 | the id becomes the given one |
| `Regions.Region.SetExpiry` | strategy/region/region.py:110-111 | the expiry becomes the given one |
| `Regions.Region.Init` | strategy/region/region.py:383-391 | the parameters are read with 0.0 defaults; a trend region's slopes make its channel pass through the `a` prices at creation and the `b` prices at the current expiry |
| `Regions.Region.Check` | strategy/region/region.py:393-406 | the base class accepts; a range needs 0 < low <= high; a trend needs positive, ordered end points and creation < expiry, so a checked trend region can be initialised |
| `Regions.Region.Test` | strategy/region/region.py:408-417 | the base class rejects every signal; a range accepts exactly the prices in [low, high] at any time; a trend accepts exactly the prices inside its channel at the given time, and fails only when it has no slopes |
| `Regions.Region.TestRegion` | strategy/region/region.py:117-140 | an exit-stage region refuses entries and an entry-stage region refuses exits; an expired region and a timeframe mismatch (region timeframe > 0) refuse; when no gate fires the result is the variant's test; an unset timeframe is an error |
| `Regions.Region.CanDelete` | strategy/region/region.py:318-329 | deletable iff expired, or long with ask < cancelation, or short with bid > cancelation; a both-direction or base region is deletable only on expiry; a short region with the default cancelation 0.0 is deletable on any positive bid |
| `Regions.Region.Dumps` | strategy/region/region.py:348-356 | the mapping is tagged with the class code and loads back to the region's persisted fields |
| `Regions.Region.Loads` | strategy/region/region.py:358-364 | the persisted fields become those read from the mapping; the slopes are left as they were |
| `Regions.Region.Reload` | strategy/region/region.py:452-474 | loading the dump of a region of the same class restores id, created, stage, direction, timeframe, expiry and prices, and does not touch the slopes |
| `Regions.CheckedChannel` | strategy/region/region.py:393-417 | a checked trend region initialised with its current expiry has a non-empty, positive channel throughout its life |
| `SubStrategyB.Level1` | strategy/bitcoinalpha/bcasubb.py:157-170 | the classification is -1, 0 or 1; it is -1 iff RSI is above 0.5 (EMA < SMA) or 0.8 (otherwise), and 1 iff RSI is below 0.2 or 0.6 respectively |
| `SubStrategyB.SetupExit` | strategy/bitcoinalpha/bcasubb.py:202-228 | a setup count of 9 exits against the setup direction, a count of 3 to 5 exits along it, and any other count asks for nothing |
| `SubStrategyB.Cascade` | strategy/bitcoinalpha/bcasubb.py:172-230 | every signal is an exit with direction ±1, the strategy timeframe and the tick timestamp; there is none iff level 1 is 0 and the setup asks for nothing; a setup exit replaces the level-1 signal, priced at the series close; otherwise the exit is opposite to the level-1 sign, at the last candle's close |
| `SubStrategyB.Dedup` | strategy/bitcoinalpha/bcasubb.py:66-76 | a candidate is dropped iff a retained signal exists in the same slot (kind, direction, base time); a dropped or absent candidate keeps the retained signal, and an emitted one becomes it |
| `SubStrategyB.Cursor` | strategy/bitcoinalpha/bcasubb.py:62-64 | the cursor is the last candle's own timestamp while that candle is open, and one timeframe after it iff the candle has ended |
| `SubStrategyB.Trunc` | strategy/bitcoinalpha/bcasubb.py:257 | `int()` truncates toward zero: the result is the whole part of the quotient, on its side of zero |
| `SubStrategyB.Delta` | strategy/bitcoinalpha/bcasubb.py:257 | the frame count never exceeds the samples available; a streamer that is behind or level gets at least one frame when a sample exists; a streamer a whole timeframe or more ahead gets none |
| `SubStrategyB.DeltaCatchesUp` | strategy/bitcoinalpha/bcasubb.py:257 | a streamer exactly k timeframes behind gets min(k + 1, available) frames |
| `SubStrategyB.Trailing` | strategy/bitcoinalpha/bcasubb.py:259-260 | the frames are the last max(0, count) timestamps, oldest first |
| `SubStrategyB.Streamer.Push` | strategy/bitcoinalpha/bcasubb.py:288 | one frame is appended |
| `SubStrategyB.SubB.constructor` | strategy/bitcoinalpha/bcasubb.py:23-31 | a new sub-strategy keeps its timeframe, depth and cursor, has no retained signal, and has trend 0 with both sides tradeable |
| `SubStrategyB.SubB.Process1` | strategy/bitcoinalpha/bcasubb.py:87-230 | the signal is the cascade's; the trend is the level-1 classification whatever the Tom DeMark override does; at least one side stays tradeable, and both sides are tradeable iff the trend is 0 |
| `SubStrategyB.SubB.Process` | strategy/bitcoinalpha/bcasubb.py:47-85 | with fewer candles than the depth there is no signal and no state changes; otherwise the cursor follows the last candle and the signal and retained signal are the duplicate filter applied to the cascade's candidate |
| `SubStrategyB.SubB.Stream` | strategy/bitcoinalpha/bcasubb.py:256-290 | the streamer receives the frames of the last `delta` candles, oldest first (none when delta <= 0), then its cursor becomes the strategy's |
| `Ticks.EmittedNeverRepeats` | strategy/bitcoinalpha/bcasubb.py:66-76 | over any run of ticks, no emitted signal is in the same slot as the one emitted before it or as the initially retained signal, and there is at most one signal per tick |

## Left out

- Indicators (RSI, SMA, EMA, SMA55, SMA200, Bollinger Bands, ATR, pivot points, Tom DeMark, price, volume): their code is not part of this model. Their last values after computation are the `Readings` input, and the price series timestamps are an input of `Stream`.
- The candle source (`candles_from`) is I/O. The window it returns is a parameter of `SubStrategyB.SubB.Process`.
- Locals computed but not used in the decision (`rsi_30_70`, `rsi_40_60`, `ema_sma_cross`, `ema_sma_height`, `bb_way`), the legacy `scores` configuration and the `rsi_low`/`rsi_high` constants are left out, because they do not affect any signal.
- Profiling traces attached to retained signals, the streamer's member registration (`setup_streamer`) and the per-member updates of a frame are observability only. A frame is modelled as the timestamp of its candle.
- `SubStrategyB.SubB.Stream`: takes `len(self.price.prices)` to be the length of the price timestamp series.
- `SubStrategyB.SubB.constructor`: the base class `bcasub.py` is not part of this model. The initial cursor is a parameter; the initial trend (0), side flags (both true) and retained signal (none) are chosen. A positive timeframe and a depth of at least 1 are assumed.
- The strategy signal class is not part of this model. Its exit kind is taken as -1, and `base_time()` is a function parameter. A signal object is taken to be truthy.
- `direction_from_str` reads an undefined name and always raises `NameError`, so it is not modelled.
- `str_info`, `parameters`, `created_to_str`, `expiry_to_str` and `timeframe_to_str` are display formatting only.
- `Regions.Region.constructor`: a trend region has no end-point or cancelation attributes until `init` or `loads`, so its `check` and `dumps` raise `AttributeError`, and so does `can_delete` for a LONG or SHORT trend region that has not expired. The model starts them at 0.0, under which `check` is false and `can_delete` returns a bool (true for a long region whenever the ask is negative, for a short one whenever the bid is positive).
- `Regions.Region.Init`: requires expiry ≠ creation for a trend region. The source divides by their difference and raises `ZeroDivisionError` there.
- `RegionPersist.Load`: only the keys the region code reads are represented. A value of an unexpected type is treated as missing; the source would store it as it is. An integer price or timestamp reads as the same number.
- Floating-point rounding: all arithmetic is exact over `real`.
- `connector/binance/connector.py` and `view/assetview.py` are not part of this model: they are exchange I/O and terminal display.
