/**
 The US county specializations, `CSBSLocation` and `NYTLocation`.

 As written, both constructors pass their arguments to `super().__init__`
 positionally, which a pydantic model does not accept. Both also assign
 `state` and `county`, which are not declared fields. Both `serialize`
 methods call a `super().serialize` that does not exist: `BaseLocation`
 defines no `serialize`, and `TimelinedLocation` defines only `dict`.
 This module models what the code evidently means:
 - the constructor arguments go to `id`, `country`, `province`,
   `coordinates` and `last_updated`;
 - the CSBS output is `BaseLocation.dict()` with `state` and `county`
   merged in;
 - the NYT output is `TimelinedLocation.dict(timelines=flag)` with `state`
   and `county` merged in.
 */
module Counties {
  import opened Wrappers
  import opened Values
  import opened Countries
  import opened Locations
  import opened Projection
  import opened Timelined

  /** The country both county sources belong to. */
  const US: string := "US"

  /** A CSBS county snapshot. */
  datatype CsbsLocation = CsbsLocation(base: Location, state: string, county: string)

  /** A NYT county time series. */
  datatype NytLocation = NytLocation(timelined: TimelinedLocation, state: string, county: string)

  /** The output of a county variant: `state` and `county` merged into `serialized`. */
  function WithCounty(serialized: map<Key, Value>, state: string, county: string): (r: map<Key, Value>)
    ensures r.Keys == serialized.Keys + {StateKey, CountyKey}
    ensures r[StateKey] == Str(state) && r[CountyKey] == Str(county)
    ensures forall k :: k in serialized && k != StateKey && k != CountyKey ==> r[k] == serialized[k]
  {
    serialized[StateKey := Str(state)][CountyKey := Str(county)]
  }

  /** The raw arguments of a county location: US, `province := state`, the rest as given. */
  function CountyRaw(id: int, state: string, coordinates: Coordinates, lastUpdated: string,
                     confirmed: Option<int>, deaths: Option<int>, recovered: Option<int>): (raw: RawLocation)
    ensures raw.id == Some(id) && raw.country == Some(US)
  {
    RawLocation(
      Some(id), Some(US), None, None, Some(state), None, None, Some(coordinates),
      Some(lastUpdated), confirmed, deaths, recovered, None)
  }

  /** `CSBSLocation(id, state, county, coordinates, last_updated, confirmed, deaths)`. */
  function NewCsbs(id: int, state: string, county: string, coordinates: Coordinates, lastUpdated: string,
                   confirmed: int, deaths: int, env: Environment): (r: CsbsLocation)
    ensures r.base.id == id && r.base.country == US
    ensures r.base.province == Some(state)
    ensures r.base.coordinates == coordinates && r.base.lastUpdated == lastUpdated
    ensures r.base.recovered == 0
    ensures r.base.latest == Latest(confirmed, deaths, 0)
    ensures r.base.countryCode == Upper(ResolveCode(env.table, US))
    ensures r.state == state && r.county == county
  {
    var raw := CountyRaw(id, state, coordinates, lastUpdated, Some(confirmed), Some(deaths), Some(0));
    CsbsLocation(Derive(raw, env).value, state, county)
  }

  /** `CSBSLocation.serialize(timelines)`: the super call is `BaseLocation.dict()`; the flag is ignored. */
  function CsbsSerialize(loc: CsbsLocation, flag: bool): (r: map<Key, Value>)
    ensures r.Keys == BaseDict(loc.base, {}).Keys + {StateKey, CountyKey}
    ensures r[StateKey] == Str(loc.state) && r[CountyKey] == Str(loc.county)
    ensures forall k :: k in Elided ==> k !in r
    ensures Dense(r)
  {
    WithCounty(BaseDict(loc.base, {}), loc.state, loc.county)
  }

  /** `NYTLocation(id, state, county, coordinates, last_updated, timelines)`. */
  function NewNyt<T>(id: int, state: string, county: string, coordinates: Coordinates, lastUpdated: string,
                     timelines: map<Key, T>, serialize: T -> Value, env: Environment): (r: NytLocation)
    requires CanonicalKeys(timelines.Keys)
    ensures r.timelined.base.id == id && r.timelined.base.country == US
    ensures r.timelined.base.province == Some(state)
    ensures r.timelined.base.coordinates == coordinates && r.timelined.base.lastUpdated == lastUpdated
    ensures r.timelined.base.latest == Latest(0, 0, 0)
    ensures r.timelined.base.countryCode == Upper(ResolveCode(env.table, US))
    ensures r.timelined.timelines.Keys == timelines.Keys
    ensures forall k :: k in timelines ==> r.timelined.timelines[k] == serialize(timelines[k])
    ensures r.state == state && r.county == county
  {
    var raw := CountyRaw(id, state, coordinates, lastUpdated, None, None, None);
    NytLocation(NewTimelined(raw, timelines, serialize, env).value, state, county)
  }

  /** `NYTLocation.serialize(timelines)`: the super call is `TimelinedLocation.dict(timelines=flag)`. */
  function NytSerialize(loc: NytLocation, flag: bool): (r: map<Key, Value>)
    ensures r.Keys == TimelinedDict(loc.timelined, flag, {}).value.Keys + {StateKey, CountyKey}
    ensures r[StateKey] == Str(loc.state) && r[CountyKey] == Str(loc.county)
    ensures forall k :: k in Elided ==> k !in r
    ensures Dense(r)
  {
    WithCounty(TimelinedDict(loc.timelined, flag, {}).value, loc.state, loc.county)
  }

  /** No declared location field is called `state` or `county`. */
  lemma NoCountyFields(loc: Location)
    ensures StateKey !in LocationFields(loc) && CountyKey !in LocationFields(loc)
  {
  }

  /** Merging `state` and `county` into an output without them adds exactly those two keys. */
  lemma WithCountyRemoved(serialized: map<Key, Value>, state: string, county: string)
    requires StateKey !in serialized && CountyKey !in serialized
    ensures WithCounty(serialized, state, county) - {StateKey, CountyKey} == serialized
  {
    var rest := WithCounty(serialized, state, county) - {StateKey, CountyKey};
    assert rest.Keys == serialized.Keys;
  }

  /** Removing two key sets one after the other removes their union. */
  lemma MinusUnion(m: map<Key, Value>, a: set<Key>, b: set<Key>)
    ensures m - (a + b) == (m - a) - b
  {
  }

  /** CSBS output: the base projection plus `state`/`county`, every other key unchanged. */
  lemma CsbsExtendsBase(loc: CsbsLocation, flag: bool)
    ensures CsbsSerialize(loc, flag) - {StateKey, CountyKey} == BaseDict(loc.base, {})
    ensures CsbsSerialize(loc, flag) == CsbsSerialize(loc, !flag)
  {
    NoCountyFields(loc.base);
    WithCountyRemoved(BaseDict(loc.base, {}), loc.state, loc.county);
  }

  /** NYT output: `timelines` is present exactly when the flag is true, holding the serialized timelines. */
  lemma NytTimelinesMode(loc: NytLocation, flag: bool)
    ensures TimelinesKey in NytSerialize(loc, flag) <==> flag
    ensures flag ==> NytSerialize(loc, flag)[TimelinesKey] == Object(loc.timelined.timelines)
  {
    TimelinesMode(loc.timelined, flag, {});
  }

  /** NYT output: apart from `timelines`, the base projection plus `state`/`county`, other keys unchanged. */
  lemma NytExtendsBase(loc: NytLocation, flag: bool)
    ensures NytSerialize(loc, flag) - {StateKey, CountyKey, TimelinesKey} == BaseDict(loc.timelined.base, {})
  {
    TimelinesMode(loc.timelined, flag, {});
    var inner := TimelinedDict(loc.timelined, flag, {}).value;
    NoCountyFields(loc.timelined.base);
    assert StateKey !in inner && CountyKey !in inner;
    WithCountyRemoved(inner, loc.state, loc.county);
    var r := NytSerialize(loc, flag);
    assert r - {StateKey, CountyKey} == inner;
    MinusUnion(r, {StateKey, CountyKey}, {TimelinesKey});
    assert {StateKey, CountyKey} + {TimelinesKey} == {StateKey, CountyKey, TimelinesKey};
  }

  /** A CSBS location shows country "US" and a latest summary with no recoveries. */
  lemma CsbsOutputIsUs(id: int, state: string, county: string, coordinates: Coordinates, lastUpdated: string,
                       confirmed: int, deaths: int, env: Environment, flag: bool)
    ensures var out := CsbsSerialize(NewCsbs(id, state, county, coordinates, lastUpdated, confirmed, deaths, env), flag);
      && CountryKey in out && out[CountryKey] == Str(US)
      && LatestKey in out && out[LatestKey] == LatestValue(Latest(confirmed, deaths, 0))
  {
    var loc := NewCsbs(id, state, county, coordinates, lastUpdated, confirmed, deaths, env);
    BaseDictValues(loc.base, {});
  }
}
