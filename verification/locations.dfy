/**
 The base location entity (`BaseLocation` in app/location.py) and the
 validation pipeline that fills its derived fields.

 Pydantic runs the field validators in field-declaration order, and each
 one sees the values already validated. Here that order is written out as
 one straight-line function, `Derive`: country code, then population (from
 the code just derived), then coordinates, then the latest statistics.
 Every validator keeps a supplied value when it is truthy in Python's sense
 and derives one otherwise.
 */
module Locations {
  import opened Wrappers
  import opened Countries

  /** A position in decimal latitude/longitude. Floats are copied, never computed on. */
  datatype Coordinates = Coordinates(latitude: real, longitude: real)

  /** The latest cumulative statistics of a location. */
  datatype Latest = Latest(confirmed: int, deaths: int, recovered: int)

  /**
   The keyword arguments a `BaseLocation` is built from, in declaration
   order. `None` is an argument left out. For the five fields whose
   default is `None` (`country_code`, `country_population`, `province`,
   `coordinates`, `latest`), it also stands for an explicit Python `None`.
   Pydantic rejects an explicit `None` for the other optional fields, and
   that rejection is not modelled. A supplied `latest` is a `Latest`
   record (a non-empty dict or a `Latest` instance); an empty dict is
   `None`.
   */
  datatype RawLocation = RawLocation(
    id: Option<int>,
    country: Option<string>,
    countryCode: Option<string>,
    countryPopulation: Option<int>,
    province: Option<string>,
    latitude: Option<real>,
    longitude: Option<real>,
    coordinates: Option<Coordinates>,
    lastUpdated: Option<string>,
    confirmed: Option<int>,
    deaths: Option<int>,
    recovered: Option<int>,
    latest: Option<Latest>)

  /** A fully validated `BaseLocation`. */
  datatype Location = Location(
    id: int,
    country: string,
    countryCode: string,
    countryPopulation: Option<int>,
    province: Option<string>,
    latitude: real,
    longitude: real,
    coordinates: Coordinates,
    lastUpdated: string,
    confirmed: int,
    deaths: int,
    recovered: int,
    latest: Latest)

  /**
   What construction depends on besides its arguments: the country tables
   and the `last_updated` default, which the source evaluates from the clock
   once, when the class is defined.
   */
  datatype Environment = Environment(table: CountryTable, defaultLastUpdated: string)

  /** Construction aborts only when a required field is missing; the error names them. */
  datatype ValidationError = MissingFields(fields: seq<string>)

  /** Python truthiness of an optional string: present and non-empty. */
  predicate TruthyStr(v: Option<string>)
  {
    v.Some? && v.value != ""
  }

  /** Python truthiness of an optional int: present and non-zero. */
  predicate TruthyInt(v: Option<int>)
  {
    v.Some? && v.value != 0
  }

  /** `set_country_code`: a truthy code wins; otherwise the upper-cased lookup of the country. */
  function SetCountryCode(v: Option<string>, country: string, t: CountryTable): (r: string)
    ensures TruthyStr(v) ==> r == v.value
    ensures !TruthyStr(v) && country !in t.codes ==> r == Unknown
    ensures !TruthyStr(v) && country in t.codes ==> r == Upper(t.codes[country])
  {
    UpperUnknown();
    if TruthyStr(v) then v.value else Upper(ResolveCode(t, country))
  }

  /** `set_country_population`: a truthy population wins; otherwise the lookup of `code`. */
  function SetCountryPopulation(v: Option<int>, code: string, t: CountryTable): (r: Option<int>)
    ensures TruthyInt(v) ==> r == v
    ensures !TruthyInt(v) ==> (r.Some? <==> code in t.populations)
    ensures !TruthyInt(v) && r.Some? ==> r.value == t.populations[code]
  {
    if TruthyInt(v) then v else ResolvePopulation(t, code)
  }

  /** `set_coordinates`: a supplied coordinates object wins; otherwise one built from the raw pair. */
  function SetCoordinates(v: Option<Coordinates>, latitude: real, longitude: real): (r: Coordinates)
    ensures v.Some? ==> r == v.value
    ensures v.None? ==> r.latitude == latitude && r.longitude == longitude
  {
    match v
    case Some(c) => c
    case None => Coordinates(latitude, longitude)
  }

  /** `set_latest`: a supplied latest wins; otherwise the three raw counters. */
  function SetLatest(v: Option<Latest>, confirmed: int, deaths: int, recovered: int): (r: Latest)
    ensures v.Some? ==> r == v.value
    ensures v.None? ==> r.confirmed == confirmed && r.deaths == deaths && r.recovered == recovered
  {
    match v
    case Some(l) => l
    case None => Latest(confirmed, deaths, recovered)
  }

  /** The required fields that `raw` lacks, in declaration order. */
  function MissingRequired(raw: RawLocation): (r: seq<string>)
    ensures "id" in r <==> raw.id.None?
    ensures "country" in r <==> raw.country.None?
    ensures |r| <= 2
  {
    (if raw.id.None? then ["id"] else []) + (if raw.country.None? then ["country"] else [])
  }

  /**
   Constructing a `BaseLocation`: the defaults of the optional fields, then
   the four validators in field-declaration order.
   */
  function Derive(raw: RawLocation, env: Environment): (r: Result<Location, ValidationError>)
    ensures r.Success? <==> raw.id.Some? && raw.country.Some?
    ensures r.Failure? ==> |r.error.fields| > 0
    ensures r.Failure? ==> ("id" in r.error.fields <==> raw.id.None?)
    ensures r.Failure? ==> ("country" in r.error.fields <==> raw.country.None?)
    ensures r.Success? ==>
      && r.value.id == raw.id.value
      && r.value.country == raw.country.value
      && r.value.province == raw.province
      && r.value.lastUpdated == raw.lastUpdated.GetOr(env.defaultLastUpdated)
      && r.value.latitude == raw.latitude.GetOr(0.0)
      && r.value.longitude == raw.longitude.GetOr(0.0)
      && r.value.confirmed == raw.confirmed.GetOr(0)
      && r.value.deaths == raw.deaths.GetOr(0)
      && r.value.recovered == raw.recovered.GetOr(0)
    // supplied values win
    ensures r.Success? && TruthyStr(raw.countryCode) ==> r.value.countryCode == raw.countryCode.value
    ensures r.Success? && TruthyInt(raw.countryPopulation) ==> r.value.countryPopulation == raw.countryPopulation
    ensures r.Success? && raw.coordinates.Some? ==> r.value.coordinates == raw.coordinates.value
    ensures r.Success? && raw.latest.Some? ==> r.value.latest == raw.latest.value
    // otherwise derived, each step from the fields before it
    ensures r.Success? && !TruthyStr(raw.countryCode) ==>
      r.value.countryCode == Upper(ResolveCode(env.table, r.value.country))
    ensures r.Success? && !TruthyInt(raw.countryPopulation) ==>
      r.value.countryPopulation == ResolvePopulation(env.table, r.value.countryCode)
    ensures r.Success? && raw.coordinates.None? ==>
      r.value.coordinates == Coordinates(r.value.latitude, r.value.longitude)
    ensures r.Success? && raw.latest.None? ==>
      r.value.latest == Latest(r.value.confirmed, r.value.deaths, r.value.recovered)
  {
    if raw.id.None? || raw.country.None? then
      Failure(MissingFields(MissingRequired(raw)))
    else
      var country := raw.country.value;
      var latitude := raw.latitude.GetOr(0.0);
      var longitude := raw.longitude.GetOr(0.0);
      var confirmed := raw.confirmed.GetOr(0);
      var deaths := raw.deaths.GetOr(0);
      var recovered := raw.recovered.GetOr(0);
      var code := SetCountryCode(raw.countryCode, country, env.table);
      var population := SetCountryPopulation(raw.countryPopulation, code, env.table);
      var coordinates := SetCoordinates(raw.coordinates, latitude, longitude);
      var latest := SetLatest(raw.latest, confirmed, deaths, recovered);
      Success(Location(
        raw.id.value, country, code, population, raw.province,
        latitude, longitude, coordinates,
        raw.lastUpdated.GetOr(env.defaultLastUpdated),
        confirmed, deaths, recovered, latest))
  }

  /** The keyword arguments that rebuild `loc`: every field supplied. */
  function ToRaw(loc: Location): (raw: RawLocation)
    ensures raw.id == Some(loc.id) && raw.country == Some(loc.country)
  {
    RawLocation(
      Some(loc.id), Some(loc.country), Some(loc.countryCode), loc.countryPopulation,
      loc.province, Some(loc.latitude), Some(loc.longitude), Some(loc.coordinates),
      Some(loc.lastUpdated), Some(loc.confirmed), Some(loc.deaths), Some(loc.recovered),
      Some(loc.latest))
  }

  /**
   Idempotence: feeding a constructed location back through construction,
   with every field supplied, changes nothing, whatever the clock default.
   */
  lemma DeriveIdempotent(raw: RawLocation, env: Environment, env': Environment)
    requires Derive(raw, env).Success?
    requires env'.table == env.table
    ensures Derive(ToRaw(Derive(raw, env).value), env') == Derive(raw, env)
  {
  }

  /** After construction the country code is never empty, when no matched name maps to an empty code. */
  lemma CountryCodeNonEmpty(raw: RawLocation, env: Environment)
    requires CodesNonEmpty(env.table)
    requires Derive(raw, env).Success?
    ensures Derive(raw, env).value.countryCode != ""
  {
    UpperUnknown();
  }

  /** A derived code is two capital letters when every matched code is a pair of letters. */
  lemma DerivedCodeIsAlpha2(raw: RawLocation, env: Environment)
    requires CodesAreLetterPairs(env.table)
    requires Derive(raw, env).Success?
    requires !TruthyStr(raw.countryCode)
    ensures IsAlpha2(Derive(raw, env).value.countryCode)
  {
    ResolvedCodeIsAlpha2(env.table, raw.country.value);
  }

  /**
   A derived code other than the sentinel comes from a matched country; the
   converse holds when no matched name maps to the sentinel.
   */
  lemma SentinelMeansUnmatched(raw: RawLocation, env: Environment)
    requires Derive(raw, env).Success?
    requires !TruthyStr(raw.countryCode)
    ensures Derive(raw, env).value.countryCode != Unknown ==> raw.country.value in env.table.codes
    ensures NoMatchedSentinel(env.table) && raw.country.value in env.table.codes ==>
      Derive(raw, env).value.countryCode != Unknown
  {
    UpperUnknown();
  }

  /**
   A derived code other than the sentinel gets a truthy population, supplied
   or looked up, when every such code has a non-zero population; a
   supplied code gets a truthy population when its own entry is non-zero.
   */
  lemma KnownCountryHasPopulation(raw: RawLocation, env: Environment)
    requires KnownCodesPopulated(env.table)
    requires Derive(raw, env).Success?
    ensures (!TruthyStr(raw.countryCode) && Derive(raw, env).value.countryCode != Unknown) ==>
      TruthyInt(Derive(raw, env).value.countryPopulation)
    ensures (TruthyStr(raw.countryCode) && !TruthyInt(raw.countryPopulation) &&
             raw.countryCode.value in env.table.populations &&
             env.table.populations[raw.countryCode.value] != 0) ==>
      TruthyInt(Derive(raw, env).value.countryPopulation)
  {
    UpperUnknown();
  }

  /** An unmatched country degrades to "XX" and, when "XX" has no entry, no population. */
  lemma UnknownCountry(raw: RawLocation, env: Environment)
    requires Derive(raw, env).Success?
    requires raw.country.value !in env.table.codes
    requires !TruthyStr(raw.countryCode)
    ensures Derive(raw, env).value.countryCode == Unknown
    ensures !TruthyInt(raw.countryPopulation) && Unknown !in env.table.populations ==>
      Derive(raw, env).value.countryPopulation.None?
  {
    UpperUnknown();
  }
}
