/** The persistence mapping of a region (`dumps` / `loads`) as pure functions
    over a snapshot of the persisted fields. */
module RegionPersist {
  import opened Outcomes
  import opened RegionFields

  /** A value of the persisted mapping. */
  datatype Value = Null | Int(i: int) | Num(r: real) | Text(s: string)

  /** The keys the region code reads or writes, named in the mapping "version",
      "region", "name", "id", "created", "stage", "direction", "timeframe", "expiry",
      "low", "high", "low-a", "high-a", "low-b", "high-b" and "cancelation"; any other
      key of a mapping is ignored by `init` and `loads`, so it is not represented. */
  datatype Key =
    | VersionKey | RegionKey | NameKey | IdKey | CreatedKey | StageKey | DirectionKey
    | TimeframeKey | ExpiryKey | LowKey | HighKey | LowAKey | HighAKey | LowBKey | HighBKey
    | CancelationKey

  /** The persisted mapping, and also the `parameters` mapping given to `init`. */
  type Record = map<Key, Value>

  /** The fields of a region that `dumps` writes and `loads` reads back.
      `timeframe` is `None` when `loads` found no timeframe. */
  datatype Snapshot = Snapshot(
    id: int, created: real, stage: int, dir: int,
    timeframe: Option<real>, expiry: real, bounds: Bounds)

  /** `data.get(key, default)` for an integer field. */
  function GetInt(data: Record, key: Key, default: int): (v: int)
    ensures key !in data ==> v == default
    ensures key in data && data[key].Int? ==> v == data[key].i
  {
    if key in data && data[key].Int? then data[key].i else default
  }

  /** `data.get(key, default)` for a price or timestamp field; an integer
      value is read as the same number. */
  function GetReal(data: Record, key: Key, default: real): (v: real)
    ensures key !in data ==> v == default
    ensures key in data && data[key].Num? ==> v == data[key].r
    ensures key in data && data[key].Int? ==> v == data[key].i as real
  {
    if key in data && data[key].Num? then data[key].r
    else if key in data && data[key].Int? then data[key].i as real
    else default
  }

  /** `data.get(key)` without a default: `None` when the key is missing. */
  function GetOptReal(data: Record, key: Key): (v: Option<real>)
    ensures key !in data ==> v == None
    ensures key in data && data[key].Num? ==> v == Some(data[key].r)
    ensures key in data && data[key].Int? ==> v == Some(data[key].i as real)
  {
    if key in data && data[key].Num? then Some(data[key].r)
    else if key in data && data[key].Int? then Some(data[key].i as real)
    else None
  }

  /** The parameters a fresh region of each kind starts with. */
  function DefaultBounds(k: Kind): (b: Bounds)
    ensures Fits(k, b)
    ensures k == Range ==> b.low == 0.0 && b.high == 0.0 && b.cancelation == 0.0
    ensures k == Trend ==>
      b.lowA == 0.0 && b.highA == 0.0 && b.lowB == 0.0 && b.highB == 0.0 && b.cancelation == 0.0
  {
    match k
    case Undefined => NoBounds
    case Range => RangeBounds(0.0, 0.0, 0.0)
    case Trend => TrendBounds(0.0, 0.0, 0.0, 0.0, 0.0)
  }

  /** The variant parameters read from a mapping, each defaulting to 0.0;
      `init` and `loads` read the same keys. */
  function LoadBounds(k: Kind, data: Record): (b: Bounds)
    ensures Fits(k, b)
    ensures data == map[] ==> b == DefaultBounds(k)
    // each price defaults to 0.0 on its own when its key is missing
    ensures k == Range ==>
      && (LowKey !in data ==> b.low == 0.0)
      && (HighKey !in data ==> b.high == 0.0)
      && (CancelationKey !in data ==> b.cancelation == 0.0)
    ensures k == Trend ==>
      && (LowAKey !in data ==> b.lowA == 0.0)
      && (HighAKey !in data ==> b.highA == 0.0)
      && (LowBKey !in data ==> b.lowB == 0.0)
      && (HighBKey !in data ==> b.highB == 0.0)
      && (CancelationKey !in data ==> b.cancelation == 0.0)
    // and a stored number is taken as it is
    ensures k == Range ==>
      && (LowKey in data && data[LowKey].Num? ==> b.low == data[LowKey].r)
      && (HighKey in data && data[HighKey].Num? ==> b.high == data[HighKey].r)
      && (CancelationKey in data && data[CancelationKey].Num? ==> b.cancelation == data[CancelationKey].r)
    ensures k == Trend ==>
      && (LowAKey in data && data[LowAKey].Num? ==> b.lowA == data[LowAKey].r)
      && (HighAKey in data && data[HighAKey].Num? ==> b.highA == data[HighAKey].r)
      && (LowBKey in data && data[LowBKey].Num? ==> b.lowB == data[LowBKey].r)
      && (HighBKey in data && data[HighBKey].Num? ==> b.highB == data[HighBKey].r)
      && (CancelationKey in data && data[CancelationKey].Num? ==> b.cancelation == data[CancelationKey].r)
    // every price is read as `data.get(key, 0.0)` reads it, integers included
    ensures k == Range ==>
      && b.low == GetReal(data, LowKey, 0.0) && b.high == GetReal(data, HighKey, 0.0)
      && b.cancelation == GetReal(data, CancelationKey, 0.0)
    ensures k == Trend ==>
      && b.lowA == GetReal(data, LowAKey, 0.0) && b.highA == GetReal(data, HighAKey, 0.0)
      && b.lowB == GetReal(data, LowBKey, 0.0) && b.highB == GetReal(data, HighBKey, 0.0)
      && b.cancelation == GetReal(data, CancelationKey, 0.0)
  {
    match k
    case Undefined => NoBounds
    case Range =>
      RangeBounds(GetReal(data, LowKey, 0.0), GetReal(data, HighKey, 0.0),
                  GetReal(data, CancelationKey, 0.0))
    case Trend =>
      TrendBounds(GetReal(data, LowAKey, 0.0), GetReal(data, HighAKey, 0.0),
                  GetReal(data, LowBKey, 0.0), GetReal(data, HighBKey, 0.0),
                  GetReal(data, CancelationKey, 0.0))
  }

  /** The keys `dumps` writes for every kind. */
  const CommonKeys: set<Key> :=
    {VersionKey, RegionKey, NameKey, IdKey, CreatedKey, StageKey, DirectionKey, TimeframeKey, ExpiryKey}

  /** The keys each kind adds. */
  function BoundKeys(k: Kind): set<Key>
  {
    match k
    case Undefined => {}
    case Range => {LowKey, HighKey, CancelationKey}
    case Trend => {LowAKey, HighAKey, LowBKey, HighBKey, CancelationKey}
  }

  function DumpBounds(b: Bounds): Record
  {
    match b
    case NoBounds => map[]
    case RangeBounds(low, high, cancelation) =>
      map[LowKey := Num(low), HighKey := Num(high), CancelationKey := Num(cancelation)]
    case TrendBounds(lowA, highA, lowB, highB, cancelation) =>
      map[LowAKey := Num(lowA), HighAKey := Num(highA),
          LowBKey := Num(lowB), HighBKey := Num(highB), CancelationKey := Num(cancelation)]
  }

  /** The common part of the persisted mapping. */
  function DumpCommon(k: Kind, s: Snapshot): Record
  {
    map[
      VersionKey := Text(VERSION), RegionKey := Int(Code(k)), NameKey := Text(Name(k)),
      IdKey := Int(s.id), CreatedKey := Num(s.created), StageKey := Int(s.stage),
      DirectionKey := Int(s.dir),
      TimeframeKey := (if s.timeframe.Some? then Num(s.timeframe.value) else Null),
      ExpiryKey := Num(s.expiry)]
  }

  lemma DumpKeys(k: Kind, s: Snapshot)
    requires Fits(k, s.bounds)
    ensures (DumpCommon(k, s) + DumpBounds(s.bounds)).Keys == CommonKeys + BoundKeys(k)
  {
    assert DumpCommon(k, s).Keys == CommonKeys;
    assert DumpBounds(s.bounds).Keys == BoundKeys(k);
  }

  lemma DumpLoadsBounds(k: Kind, s: Snapshot)
    requires Fits(k, s.bounds)
    ensures LoadBounds(k, DumpCommon(k, s) + DumpBounds(s.bounds)) == s.bounds
  {
  }

  lemma DumpKeepsCommon(k: Kind, s: Snapshot, key: Key)
    requires Fits(k, s.bounds)
    requires key in CommonKeys
    ensures key in DumpCommon(k, s)
    ensures var d := DumpCommon(k, s) + DumpBounds(s.bounds); key in d && d[key] == DumpCommon(k, s)[key]
  {
    assert key !in DumpBounds(s.bounds);
  }

  lemma DumpReadsBack(k: Kind, s: Snapshot)
    requires Fits(k, s.bounds)
    ensures var d := DumpCommon(k, s) + DumpBounds(s.bounds);
            && d.Keys == CommonKeys + BoundKeys(k)
            && d[VersionKey] == Text(VERSION) && d[RegionKey] == Int(Code(k)) && d[NameKey] == Text(Name(k))
            && Load(k, d) == s
  {
    DumpKeys(k, s);
    DumpLoadsBounds(k, s);
    var d := DumpCommon(k, s) + DumpBounds(s.bounds);
    DumpKeepsCommon(k, s, VersionKey);
    DumpKeepsCommon(k, s, RegionKey);
    DumpKeepsCommon(k, s, NameKey);
    DumpKeepsCommon(k, s, IdKey);
    DumpKeepsCommon(k, s, CreatedKey);
    DumpKeepsCommon(k, s, StageKey);
    DumpKeepsCommon(k, s, DirectionKey);
    DumpKeepsCommon(k, s, TimeframeKey);
    DumpKeepsCommon(k, s, ExpiryKey);
    assert GetInt(d, IdKey, -1) == s.id && GetReal(d, CreatedKey, 0.0) == s.created;
    assert GetInt(d, StageKey, 0) == s.stage && GetInt(d, DirectionKey, 0) == s.dir;
    assert GetOptReal(d, TimeframeKey) == s.timeframe && GetReal(d, ExpiryKey, 0.0) == s.expiry;
  }

  /** `dumps`: the persisted mapping of a region of kind `k`. It is tagged with
      the version, the class code and the class name, and reads back as the
      same snapshot. */
  function Dump(k: Kind, s: Snapshot): (d: Record)
    requires Fits(k, s.bounds)
    ensures d.Keys == CommonKeys + BoundKeys(k)
    ensures d[VersionKey] == Text(VERSION) && d[RegionKey] == Int(Code(k)) && d[NameKey] == Text(Name(k))
    ensures Load(k, d) == s
  {
    DumpReadsBack(k, s);
    DumpCommon(k, s) + DumpBounds(s.bounds)
  }

  /** `loads`: the snapshot read from a persisted mapping, with the source's
      defaults for missing keys (id -1, stage and direction BOTH, created and
      expiry 0, prices 0.0) and no timeframe when none is stored. */
  function Load(k: Kind, data: Record): (s: Snapshot)
    ensures Fits(k, s.bounds)
    ensures IdKey !in data ==> s.id == -1
    ensures CreatedKey !in data ==> s.created == 0.0
    ensures StageKey !in data ==> s.stage == STAGE_BOTH
    ensures DirectionKey !in data ==> s.dir == BOTH
    ensures ExpiryKey !in data ==> s.expiry == 0.0
    ensures TimeframeKey !in data ==> s.timeframe == None
    ensures IdKey in data && data[IdKey].Int? ==> s.id == data[IdKey].i
    ensures CreatedKey in data && data[CreatedKey].Num? ==> s.created == data[CreatedKey].r
    ensures ExpiryKey in data && data[ExpiryKey].Num? ==> s.expiry == data[ExpiryKey].r
    ensures TimeframeKey in data && data[TimeframeKey].Num? ==> s.timeframe == Some(data[TimeframeKey].r)
    ensures s.bounds == LoadBounds(k, data)
    // every common field is read as `data.get` reads it, integers included
    ensures s.id == GetInt(data, IdKey, -1) && s.created == GetReal(data, CreatedKey, 0.0)
    ensures s.stage == GetInt(data, StageKey, 0) && s.dir == GetInt(data, DirectionKey, 0)
    ensures s.timeframe == GetOptReal(data, TimeframeKey) && s.expiry == GetReal(data, ExpiryKey, 0.0)
  {
    Snapshot(
      GetInt(data, IdKey, -1), GetReal(data, CreatedKey, 0.0),
      GetInt(data, StageKey, 0), GetInt(data, DirectionKey, 0),
      GetOptReal(data, TimeframeKey), GetReal(data, ExpiryKey, 0.0),
      LoadBounds(k, data))
  }

  /** The persisted class code identifies the kind that wrote the mapping. */
  lemma DumpedKind(k: Kind, s: Snapshot)
    requires Fits(k, s.bounds)
    ensures var d := Dump(k, s); d[RegionKey].Int? && KindOfCode(d[RegionKey].i) == k
  {
  }
}
