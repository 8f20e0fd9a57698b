/**
 `BaseLocation.dict`: the projection of a location onto a field-name ->
 value map. The five raw fields are always elided, the caller's exclusions
 are added to them, and fields whose value is `None` are dropped.

 An output is keyed by the model's field names, each a `Key`.
 */
module Projection {
  import opened Wrappers
  import opened Values
  import opened Countries
  import opened Locations

  /** The raw counters and coordinate components, never part of any output. */
  const Elided: set<Key> := {ConfirmedKey, DeathsKey, RecoveredKey, LatitudeKey, LongitudeKey}

  function OptionalInt(v: Option<int>): (r: Value)
    ensures v.None? <==> r == Null
    ensures v.Some? ==> r == Int(v.value)
  {
    match v
    case Some(i) => Int(i)
    case None => Null
  }

  function OptionalStr(v: Option<string>): (r: Value)
    ensures v.None? <==> r == Null
    ensures v.Some? ==> r == Str(v.value)
  {
    match v
    case Some(s) => Str(s)
    case None => Null
  }

  /** A `Coordinates` object as a dict. */
  function CoordinatesValue(c: Coordinates): (r: Value)
  {
    Object(map[LatitudeKey := Float(c.latitude), LongitudeKey := Float(c.longitude)])
  }

  /** A `Latest` object as a dict. */
  function LatestValue(l: Latest): (r: Value)
  {
    Object(map[ConfirmedKey := Int(l.confirmed), DeathsKey := Int(l.deaths), RecoveredKey := Int(l.recovered)])
  }

  /** The fields `BaseLocation` declares. */
  const Declared: set<Key> := {
    IdKey, CountryKey, CountryCodeKey, CountryPopulationKey, ProvinceKey, LatitudeKey, LongitudeKey,
    CoordinatesKey, LastUpdatedKey, ConfirmedKey, DeathsKey, RecoveredKey, LatestKey}

  /** The value of one declared field; `None` for the keys `BaseLocation` does not declare. */
  function Field(loc: Location, k: Key): (r: Value)
  {
    match k
    case IdKey => Int(loc.id)
    case CountryKey => Str(loc.country)
    case CountryCodeKey => Str(loc.countryCode)
    case CountryPopulationKey => OptionalInt(loc.countryPopulation)
    case ProvinceKey => OptionalStr(loc.province)
    case LatitudeKey => Float(loc.latitude)
    case LongitudeKey => Float(loc.longitude)
    case CoordinatesKey => CoordinatesValue(loc.coordinates)
    case LastUpdatedKey => Str(loc.lastUpdated)
    case ConfirmedKey => Int(loc.confirmed)
    case DeathsKey => Int(loc.deaths)
    case RecoveredKey => Int(loc.recovered)
    case LatestKey => LatestValue(loc.latest)
    case _ => Null
  }

  /** Every declared field of a `BaseLocation`, before any exclusion. */
  function LocationFields(loc: Location): (r: map<Key, Value>)
  {
    map k | k in Declared :: Field(loc, k)
  }

  /** The pydantic model dump with `exclude` and `exclude_none=True`. */
  function Dump(fields: map<Key, Value>, exclude: set<Key>): (r: map<Key, Value>)
  {
    map k | k in fields && k !in exclude && fields[k] != Null :: fields[k]
  }

  /**
   `BaseLocation.dict` over the fields of any subclass: elision, then the
   dump. A Python `exclude` set of names is `ExcludeOf(names)`.
   */
  function Dict(fields: map<Key, Value>, exclude: set<Key>): (r: map<Key, Value>)
    requires CanonicalKeys(exclude)
    ensures forall k :: k in Elided ==> k !in r
    ensures forall k :: k in exclude ==> k !in r
    ensures Dense(r)
    ensures forall k :: k in r ==> k in fields && r[k] == fields[k]
    ensures forall k :: k in fields && k !in Elided && k !in exclude && fields[k] != Null ==> k in r
  {
    Dump(fields, Elided + exclude)
  }

  /** `BaseLocation.dict(exclude=exclude)`. */
  function BaseDict(loc: Location, exclude: set<Key>): (r: map<Key, Value>)
    requires CanonicalKeys(exclude)
  {
    Dict(LocationFields(loc), exclude)
  }

  /** One key of `BaseLocation.dict`: a declared, non-raw, unexcluded field that is not `None`. */
  lemma BaseDictAt(loc: Location, exclude: set<Key>, k: Key)
    requires CanonicalKeys(exclude)
    ensures k in BaseDict(loc, exclude) <==>
      k in Declared && k !in Elided && k !in exclude && Field(loc, k) != Null
    ensures k in BaseDict(loc, exclude) ==> BaseDict(loc, exclude)[k] == Field(loc, k)
  {
  }

  /** The keys of `BaseLocation.dict`, each unless excluded: six always, the population and province when known. */
  lemma BaseDictKeys(loc: Location, exclude: set<Key>)
    requires CanonicalKeys(exclude)
    ensures forall k :: k in {IdKey, CountryKey, CountryCodeKey, CoordinatesKey, LastUpdatedKey, LatestKey} ==>
      (k in BaseDict(loc, exclude) <==> k !in exclude)
    ensures CountryPopulationKey in BaseDict(loc, exclude) <==>
      loc.countryPopulation.Some? && CountryPopulationKey !in exclude
    ensures ProvinceKey in BaseDict(loc, exclude) <==> loc.province.Some? && ProvinceKey !in exclude
    ensures forall k :: k in BaseDict(loc, exclude) ==> k in LocationFields(loc) && k !in Elided
  {
    forall k | k in {IdKey, CountryKey, CountryCodeKey, CoordinatesKey, LastUpdatedKey, LatestKey}
      ensures k in BaseDict(loc, exclude) <==> k !in exclude
    {
      BaseDictAt(loc, exclude, k);
    }
    BaseDictAt(loc, exclude, CountryPopulationKey);
    BaseDictAt(loc, exclude, ProvinceKey);
  }

  /** The base output carries the entity's values under their own keys. */
  lemma BaseDictValues(loc: Location, exclude: set<Key>)
    requires CanonicalKeys(exclude)
    ensures LatestKey !in exclude ==>
      LatestKey in BaseDict(loc, exclude) && BaseDict(loc, exclude)[LatestKey] == LatestValue(loc.latest)
    ensures CoordinatesKey !in exclude ==>
      CoordinatesKey in BaseDict(loc, exclude) &&
      BaseDict(loc, exclude)[CoordinatesKey] == CoordinatesValue(loc.coordinates)
    ensures CountryCodeKey !in exclude ==>
      CountryCodeKey in BaseDict(loc, exclude) && BaseDict(loc, exclude)[CountryCodeKey] == Str(loc.countryCode)
    ensures CountryKey !in exclude ==>
      CountryKey in BaseDict(loc, exclude) && BaseDict(loc, exclude)[CountryKey] == Str(loc.country)
    ensures CountryPopulationKey in BaseDict(loc, exclude) ==>
      loc.countryPopulation.Some? &&
      BaseDict(loc, exclude)[CountryPopulationKey] == Int(loc.countryPopulation.value)
  {
    BaseDictAt(loc, exclude, LatestKey);
    BaseDictAt(loc, exclude, CoordinatesKey);
    BaseDictAt(loc, exclude, CountryCodeKey);
    BaseDictAt(loc, exclude, CountryKey);
    BaseDictAt(loc, exclude, CountryPopulationKey);
  }

  /** Caller exclusions only remove further keys: the output is the unexcluded one minus `exclude`. */
  lemma ExcludeOnlyRemoves(fields: map<Key, Value>, exclude: set<Key>)
    requires CanonicalKeys(exclude)
    ensures Dict(fields, exclude) == Dict(fields, {}) - exclude
  {
    var a := Dict(fields, exclude);
    var b := Dict(fields, {}) - exclude;
    assert a.Keys == b.Keys;
  }

  /** No key whose name the caller excluded reaches the output, whatever names they pass. */
  lemma ExcludedNamesAbsent(fields: map<Key, Value>, names: set<string>)
    requires CanonicalKeys(fields.Keys)
    ensures forall k :: k in Dict(fields, ExcludeOf(names)) ==> Name(k) !in names
  {
  }

  /** Excluding more never adds a key. */
  lemma ExcludeAntitone(fields: map<Key, Value>, e1: set<Key>, e2: set<Key>)
    requires CanonicalKeys(e1) && CanonicalKeys(e2)
    requires e1 <= e2
    ensures Dict(fields, e2).Keys <= Dict(fields, e1).Keys
  {
  }

  /**
   A location from an unmatched country shows "XX" and, when "XX" has no
   population and none was supplied, no `country_population` key.
   */
  lemma UnknownCountryOutput(raw: RawLocation, env: Environment, exclude: set<Key>)
    requires CanonicalKeys(exclude)
    requires Derive(raw, env).Success?
    requires raw.country.value !in env.table.codes
    requires !TruthyStr(raw.countryCode) && !TruthyInt(raw.countryPopulation)
    requires Unknown !in env.table.populations
    ensures CountryCodeKey !in exclude ==>
      CountryCodeKey in BaseDict(Derive(raw, env).value, exclude) &&
      BaseDict(Derive(raw, env).value, exclude)[CountryCodeKey] == Str(Unknown)
    ensures CountryPopulationKey !in BaseDict(Derive(raw, env).value, exclude)
  {
    UnknownCountry(raw, env);
  }

  /**
   The keyword arguments of the parametrized base-location test: a given
   code, latitude 15 and longitude 100, and the counters 1000, 1111, 22222,
   either as the three raw counters or as a supplied `latest`.
   */
  function SnapshotRaw(testId: int, country: string, code: string, supplied: Option<Latest>, now: string)
    : (raw: RawLocation)
    ensures raw.id == Some(testId) && raw.country == Some(country) && raw.countryCode == Some(code)
  {
    var counter := (n: int) => if supplied.None? then Some(n) else None;
    RawLocation(Some(testId), Some(country), Some(code), None, None, Some(15.0), Some(100.0), None,
                Some(now), counter(1000), counter(1111), counter(22222), supplied)
  }

  /**
   The three test snapshots (Thailand with "TH", Deutschland with "DE" and a
   supplied latest, the cruise ship with "XX") all keep their supplied code,
   show the population exactly when the table has one for that code, show
   latest (1000, 1111, 22222), and show no province and none of the raw keys.
   */
  lemma BaseLocationSnapshot(env: Environment, now: string, testId: int, country: string, code: string,
                             supplied: Option<Latest>)
    requires code != ""
    requires supplied.None? || supplied == Some(Latest(1000, 1111, 22222))
    ensures var out := BaseDict(Derive(SnapshotRaw(testId, country, code, supplied, now), env).value, {});
      && CountryCodeKey in out && out[CountryCodeKey] == Str(code)
      && (CountryPopulationKey in out <==> code in env.table.populations)
      && (CountryPopulationKey in out ==> out[CountryPopulationKey] == Int(env.table.populations[code]))
      && LatestKey in out && out[LatestKey] == LatestValue(Latest(1000, 1111, 22222))
      && ProvinceKey !in out && LatitudeKey !in out && ConfirmedKey !in out
  {
    var loc := Derive(SnapshotRaw(testId, country, code, supplied, now), env).value;
    assert loc.countryCode == code;
    assert loc.latest == Latest(1000, 1111, 22222);
    BaseDictKeys(loc, {});
    BaseDictValues(loc, {});
  }
}
