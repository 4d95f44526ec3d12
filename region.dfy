/** A strategy trade region (strategy/region/region.py): a time- and
    price-bounded constraint that gates the signals of a strategy. The base
    class and its two subclasses are one class tagged by `kind`; the variant
    parameters live in `bounds`. */
module Regions {
  import opened Outcomes
  import opened Signals
  import opened RegionFields
  import opened RegionPersist

  /** The exceptions `test_region` raises in the source. */
  datatype Fault =
    | MissingSlopes   // a trend region tested before `init` computed its slopes
    | TimeframeUnset  // a region whose timeframe `loads` left unset, compared with 0

  /** The stage gate: an exit-stage region refuses entry signals and an
      entry-stage region refuses exit signals. */
  predicate StageAdmits(stage: int, s: Signal)
  {
    !(stage == STAGE_EXIT && s.IsEntry()) && !(stage == STAGE_ENTRY && s.IsExit())
  }

  class Region {
    const kind: Kind
    var id: int                 // -1 until an identifier is assigned
    var created: real           // creation timestamp
    var stage: int              // STAGE_ENTRY, STAGE_EXIT or STAGE_BOTH
    var dir: int                // LONG, SHORT or BOTH
    var expiry: real            // <= 0 never expires
    var timeframe: Option<real> // 0 accepts any timeframe
    var bounds: Bounds
    var slopes: Option<Slopes>  // a trend region's slopes, set by `init` only

    ghost predicate Valid()
      reads this
    {
      Fits(kind, bounds) && (kind != Trend ==> slopes.None?)
    }

    constructor (kind: Kind, created: real, stage: int, direction: int, timeframe: real)
      ensures Valid()
      ensures this.kind == kind && id == -1 && this.created == created
      ensures this.stage == stage && dir == direction
      ensures expiry == 0.0 && this.timeframe == Some(timeframe)
      ensures bounds == DefaultBounds(kind) && slopes.None?
    {
      this.kind := kind;
      id := -1;
      this.created := created;
      this.stage := stage;
      dir := direction;
      expiry := 0.0;
      this.timeframe := Some(timeframe);
      bounds := DefaultBounds(kind);
      slopes := None;
    }

    /** The fields that `dumps` persists. */
    function Persisted(): Snapshot
      reads this
    {
      Snapshot(id, created, stage, dir, timeframe, expiry, bounds)
    }

    method SetId(newId: int)
      modifies this`id
      ensures id == newId
    {
      id := newId;
    }

    method SetExpiry(newExpiry: real)
      modifies this`expiry
      ensures expiry == newExpiry
    {
      expiry := newExpiry;
    }

    /** The low line of a trend channel at time `t`. */
    function LowAt(t: real): real
      reads this
      requires bounds.TrendBounds? && slopes.Some?
    {
      Line(slopes.value.dl, bounds.lowA, created, t)
    }

    /** The high line of a trend channel at time `t`. */
    function HighAt(t: real): real
      reads this
      requires bounds.TrendBounds? && slopes.Some?
    {
      Line(slopes.value.dh, bounds.highA, created, t)
    }

    /** `init`: reads the variant parameters (missing ones are 0.0); a trend
        region then derives its slopes from the expiry set at that moment, so
        that its channel runs from the `a` prices at creation to the `b`
        prices at expiry. The base class ignores the parameters. */
    method Init(parameters: Record)
      requires Valid()
      requires kind == Trend ==> expiry != created
      modifies this`bounds, this`slopes
      ensures Valid()
      ensures kind == Undefined ==> bounds == old(bounds)
      ensures kind != Undefined ==> bounds == LoadBounds(kind, parameters)
      ensures kind != Trend ==> slopes == old(slopes)
      ensures kind == Trend ==> slopes == Some(SlopesFor(bounds, created, expiry))
      ensures kind == Trend ==>
        && LowAt(created) == bounds.lowA && HighAt(created) == bounds.highA
        && LowAt(expiry) == bounds.lowB && HighAt(expiry) == bounds.highB
    {
      if kind == Range {
        bounds := LoadBounds(Range, parameters);
      } else if kind == Trend {
        bounds := LoadBounds(Trend, parameters);
        slopes := Some(SlopesFor(bounds, created, expiry));
        ChannelEndpoints(bounds, created, expiry);
      }
    }

    /** `check`: the base class accepts anything; a range needs positive bounds
        with low <= high; a trend needs positive end points, low <= high at
        both ends and an expiry after its creation. */
    function Check(): (ok: bool)
      reads this
      ensures bounds.NoBounds? ==> ok
      ensures bounds.RangeBounds? ==> (ok <==> 0.0 < bounds.low <= bounds.high)
      ensures bounds.TrendBounds? ==>
        (ok <==> 0.0 < bounds.lowA <= bounds.highA && 0.0 < bounds.lowB <= bounds.highB && created < expiry)
      ensures ok && kind == Trend && Valid() ==> expiry != created
    {
      match bounds
      case NoBounds => true
      case RangeBounds(low, high, _) => low > 0.0 && high > 0.0 && high >= low
      case TrendBounds(lowA, highA, lowB, highB, _) =>
        if lowA <= 0.0 || highA <= 0.0 || lowB <= 0.0 || highB <= 0.0 then false
        else if lowA > highA || lowB > highB then false
        else if expiry <= created then false
        else true
    }

    /** `test`: the variant's own price test. The base class refuses every
        signal; a range accepts a price inside its flat band whatever the time;
        a trend accepts a price inside its channel at `timestamp`. */
    function Test(timestamp: real, s: Signal): (r: Result<bool, Fault>)
      reads this
      ensures bounds.NoBounds? ==> r == Ok(false)
      ensures bounds.RangeBounds? ==> r.Ok? && (r.value <==> bounds.low <= s.price <= bounds.high)
      ensures bounds.TrendBounds? ==> (r.Err? <==> slopes.None?)
      ensures bounds.TrendBounds? && slopes.Some? ==>
        r.Ok? && (r.value <==> LowAt(timestamp) <= s.price <= HighAt(timestamp))
    {
      match bounds
      case NoBounds => Ok(false)
      case RangeBounds(low, high, _) => Ok(low <= s.price <= high)
      case TrendBounds(lowA, highA, _, _, _) =>
        if slopes.None? then Err(MissingSlopes)
        else
          var dt := timestamp - created;
          var low := dt * slopes.value.dl + lowA;
          var high := dt * slopes.value.dh + highA;
          Ok(low <= s.price <= high)
    }

    /** `test_region`: the stage, expiry and timeframe gates, then the
        variant's own test. */
    function TestRegion(timestamp: real, s: Signal): (r: Result<bool, Fault>)
      reads this
      ensures !StageAdmits(stage, s) ==> r == Ok(false)
      ensures Expired(expiry, timestamp) ==> r == Ok(false)
      ensures timeframe.Some? && timeframe.value > 0.0 && s.tf != timeframe.value ==> r == Ok(false)
      ensures StageAdmits(stage, s) && !Expired(expiry, timestamp) && timeframe.None? ==>
        r == Err(TimeframeUnset)
      ensures (StageAdmits(stage, s) && !Expired(expiry, timestamp) && timeframe.Some?
               && (timeframe.value <= 0.0 || s.tf == timeframe.value)) ==> r == Test(timestamp, s)
    {
      if stage == STAGE_EXIT && s.IsEntry() then Ok(false)
      else if stage == STAGE_ENTRY && s.IsExit() then Ok(false)
      else if expiry > 0.0 && timestamp >= expiry then Ok(false)
      else if timeframe.None? then Err(TimeframeUnset)
      else if timeframe.value > 0.0 && s.tf != timeframe.value then Ok(false)
      else Test(timestamp, s)
    }

    /** `can_delete`: a region is deleted once expired; a range or trend region
        also once the ask falls below its cancelation price (long) or the bid
        rises above it (short). */
    function CanDelete(timestamp: real, bid: real, ofr: real): (r: bool)
      reads this
      ensures Expired(expiry, timestamp) ==> r
      ensures bounds.NoBounds? || dir !in {LONG, SHORT} ==> (r <==> Expired(expiry, timestamp))
      ensures !bounds.NoBounds? ==>
        (r <==> Expired(expiry, timestamp)
                || (dir == LONG && ofr < bounds.cancelation)
                || (dir == SHORT && bid > bounds.cancelation))
      ensures !bounds.NoBounds? && dir == SHORT && bounds.cancelation == 0.0 && bid > 0.0 ==> r
    {
      if expiry > 0.0 && timestamp >= expiry then true
      else if bounds.NoBounds? then false
      else if dir == LONG && ofr < bounds.cancelation then true
      else if dir == SHORT && bid > bounds.cancelation then true
      else false
    }

    /** `dumps`: the persisted mapping, tagged with the class code; `loads`
        reads it back as the same fields. */
    function Dumps(): (d: Record)
      reads this
      requires Valid()
      ensures Load(kind, d) == Persisted()
      ensures RegionKey in d && d[RegionKey] == Int(Code(kind))
    {
      Dump(kind, Persisted())
    }

    /** `loads`: overwrites the persisted fields from a mapping, with defaults
        for missing keys; a trend region's slopes are not touched. */
    method Loads(data: Record)
      requires Valid()
      modifies this`id, this`created, this`stage, this`dir, this`timeframe, this`expiry, this`bounds
      ensures Valid()
      ensures Persisted() == Load(kind, data)
    {
      var s := Load(kind, data);
      id := s.id;
      created := s.created;
      stage := s.stage;
      dir := s.dir;
      timeframe := s.timeframe;
      expiry := s.expiry;
      bounds := s.bounds;
    }
  }

  /** A trend region that passes `check` and whose slopes come from its current
      expiry has a non-empty channel above zero during its whole life. */
  lemma CheckedChannel(r: Region, t: real)
    requires r.Valid() && r.kind == Trend && r.Check()
    requires r.slopes == Some(SlopesFor(r.bounds, r.created, r.expiry))
    requires r.created <= t <= r.expiry
    ensures 0.0 < r.LowAt(t) <= r.HighAt(t)
  {
    ChannelOrdered(r.bounds, r.created, r.expiry, t);
  }

  /** Reloading a dumped region of the same kind restores every persisted
      field, and leaves the slopes where they were. */
  method Reload(r: Region, from: Region)
    requires r.Valid() && from.Valid() && r.kind == from.kind
    modifies r
    ensures r.Persisted() == old(from.Persisted())
    ensures r.slopes == old(r.slopes)
  {
    r.Loads(from.Dumps());
  }
}
