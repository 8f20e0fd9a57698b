# Location entity model (coronavirus-tracker-api)

A Dafny model of the location entity of the coronavirus tracker API
(`app/location.py`): the pydantic model `BaseLocation` with its validation
pipeline, the projection `BaseLocation.dict`, the time-series variant
`TimelinedLocation`, and the two US county variants `CSBSLocation` and
`NYTLocation`.

- `wrappers.dfy` (`Wrappers`): `Option` and `Result`.
- `values.dfy` (`Values`): the JSON-like `Value` an entity is projected onto,
  and `Key`, the dict keys. Each field name has its own constructor, and
  `Name` gives the Python string for it.
- `countries.dfy` (`Countries`): the country-name -> alpha-2 table and the
  code -> population table, as finite tables of unknown contents. Also
  ASCII upper-casing and the "XX" sentinel.
- `locations.dfy` (`Locations`): the raw keyword arguments, the four
  validators, and `Derive`. `Derive` runs the validators in field-declaration
  order as one straight-line function. It also holds the idempotence and
  country-lookup lemmas.
- `projection.dfy` (`Projection`): `BaseLocation.dict`. It always elides the
  five raw fields, adds the caller's exclusions, and drops `None` values.
- `timelined.dfy` (`Timelined`): `TimelinedLocation` construction and its
  `dict(timelines=…)`.
- `counties.dfy` (`Counties`): `CSBSLocation` and `NYTLocation`.

Each validator keeps a supplied value when it is truthy in Python's sense
and derives a value otherwise. So a supplied `country_code=""` or
`country_population=0` is re-derived. Supplied coordinates reach their
validator as a `Coordinates` instance, which is always truthy, so they are
kept. `set_latest` runs before coercion, so it sees the raw argument: a
non-empty dict or a `Latest` instance is kept, and an empty dict counts as
not supplied.

- `TimelinedLocation` derives `latest` from the raw counters, as
  `BaseLocation` does; it never reads the timelines.
- `TimelinedLocation.dict(timelines=False)` raises `KeyError` when the caller
  also excluded `timelines`. The model returns `Failure(KeyError(TimelinesKey))`.

Dict keys are the `Key` datatype. A Python name is encoded by `KeyOf`: each
field name by its own constructor, any other name as `Other`. An `exclude`
set of names is `ExcludeOf(names)`. The projections require their
exclusions to be canonical, meaning no `Other` spells a field name, and on
canonical keys `Name` and `KeyOf` are inverse.

The county constructors, as written, pass positional arguments to a pydantic
`__init__`, which accepts only keywords. They also assign undeclared fields,
and both `serialize` methods call a `super().serialize` that does not
exist: `BaseLocation` defines no `serialize`, and `TimelinedLocation`
defines only `dict`. The model follows their evident intent.
`CsbsSerialize` maps the call to `BaseLocation.dict()`, and
`NytSerialize` maps it to `TimelinedLocation.dict(timelines=flag)`. The
other parts of that intent are: country "US",
`province := state`, the given coordinates and `last_updated`, and the base
projection with `state` and `county` merged in.

## Model

| member | source | states |
|---|---|---|
| Values.NameInjective | app/location.py:27-45 | two canonical keys with the same Python name are the same key |
| Values.KeyOf | app/location.py:27-45 | every Python name has a canonical key that carries that name |
| Values.KeyOfName | app/location.py:27-45 | the canonical key of a canonical key's name is that key |
| Values.ExcludeOf | app/location.py:88-90 | an exclude set of names becomes canonical keys, and a canonical key is in it exactly when its name is |
| Countries.Upper | app/location.py:69 | upper-casing keeps the length, maps each character through ASCII upper-case, and turns letters into capitals |
| Countries.ResolveCode | app/location.py:66 | a name missing from the table gives "XX"; a matched name gives its table entry |
| Countries.ResolvePopulation | app/location.py:77 | a population exists exactly when the code is in the population table, and it is that entry |
| Countries.ResolvedCodeIsAlpha2 | app/location.py:66-69 | when every matched code is a pair of letters, the upper-cased code of any name is two capital letters, matched or "XX" |
| Locations.SetCountryCode | app/location.py:63-69 | a truthy supplied code is kept; otherwise an unmatched country gives "XX" and a matched one its upper-cased code |
| Locations.SetCountryPopulation | app/location.py:71-77 | a truthy supplied population is kept; otherwise the population is present exactly when the code is in the table, and it is that entry |
| Locations.SetCoordinates | app/location.py:79-85 | supplied coordinates are kept; otherwise they are the raw latitude and longitude |
| Locations.SetLatest | app/location.py:52-61 | a supplied latest is kept verbatim; otherwise it holds the three raw counters |
| Locations.MissingRequired | app/location.py:27-28 | lists "id" and "country" exactly when each is missing |
| Locations.Derive | app/location.py:27-85 | construction fails exactly when id or country is missing, naming each missing field; otherwise defaults apply (0.0, 0, the clock default), supplied values win, and each derived field comes from the ones before it, so the population uses the code just derived |
| Locations.DeriveIdempotent | app/location.py:55-56 | rebuilding a constructed location from all its fields, under any clock default, gives the same location |
| Locations.CountryCodeNonEmpty | tests/test_location.py:112 | when no matched name maps to an empty code, the code is never empty after construction |
| Locations.DerivedCodeIsAlpha2 | app/location.py:63-69 | when every matched code is a pair of letters, a derived code is two capital letters |
| Locations.SentinelMeansUnmatched | app/location.py:63-69 | a derived code other than "XX" comes from a matched country; when no matched name maps to "XX", a matched country never gets "XX" |
| Locations.KnownCountryHasPopulation | tests/test_location.py:113-114 | when every matched code other than "XX" has a non-zero population, a derived code other than "XX" comes with a truthy population, supplied or looked up; a supplied code with a non-zero entry gets a truthy population |
| Locations.UnknownCountry | app/location.py:66-77 | an unmatched country with no supplied code gets "XX"; it has no population when "XX" has none and none was supplied |
| Projection.Dict | app/location.py:87-91 | the five raw keys and every caller-excluded key are absent; no value is None; every other non-None field is shown with its own value |
| Projection.BaseDictAt | app/location.py:87-91 | a key is in a base location's output exactly when it is a declared field, not one of the five raw keys, not excluded and not None, and it then holds that field's value |
| Projection.BaseDictKeys | app/location.py:87-91 | the output keys are exactly id, country, country_code, coordinates, last_updated, latest, plus population and province when not None, minus the exclusions |
| Projection.BaseDictValues | app/location.py:87-91 | the output shows latest, coordinates, country and code with their derived values unless they are excluded; a shown population is the known one |
| Projection.ExcludeOnlyRemoves | app/location.py:89-90 | the output with exclusions is the output without them, minus the excluded keys |
| Projection.ExcludedNamesAbsent | app/location.py:88-91 | no key whose name the caller passed in `exclude` appears in the output |
| Projection.ExcludeAntitone | app/location.py:89-90 | excluding more keys never adds a key |
| Projection.UnknownCountryOutput | app/location.py:66-91 | with no supplied code or population, an unmatched country shows "XX" and, when "XX" has no population entry, no country_population key |
| Projection.BaseLocationSnapshot | tests/test_location.py:65-114 | each of the three test snapshots keeps its supplied code, shows the population exactly when the table has one for that code, shows latest (1000, 1111, 22222) whether given as counters or as a dict, and shows no province, latitude or confirmed key |
| Timelined.SerializeTimelines | app/location.py:101-104 | each timeline is replaced by its serialized form, under the same kinds |
| Timelined.NewTimelined | app/location.py:94-104 | construction fails exactly as the base pipeline does; on success the base is the derived location and the timelines are serialized under the same kinds |
| Timelined.TimelinedDict | app/location.py:106-114 | the call raises KeyError exactly when the flag is false and timelines was excluded; otherwise no elided or excluded key and no None value |
| Timelined.DictWithField | app/location.py:99-114 | a subclass field that is neither declared by the base nor raw appears exactly when it is not excluded and not None, with its own value, and leaves every other key as the base dict has it |
| Timelined.TimelinesMode | app/location.py:106-114 | timelines is present exactly when the flag is true and it is not excluded, and then holds the serialized timelines; every other key is the base projection |
| Timelined.TimelinedDictByName | app/location.py:106-111 | in terms of names, the call raises KeyError exactly when the flag is false and the caller excluded "timelines" |
| Timelined.TimelinesOmitted | app/location.py:110-111 | with the flag false and timelines not excluded, the output is exactly the base projection |
| Counties.WithCounty | app/location.py:153-155 | the output gains state and county; every other key keeps its value |
| Counties.CountyRaw | app/location.py:127-139 | the county arguments always supply an id and country "US" |
| Counties.NewCsbs | app/location.py:127-142 | a CSBS location has country "US", province = state, recovered 0, latest = (confirmed, deaths, 0), and the code looked up for "US" |
| Counties.CsbsSerialize | app/location.py:144-158 | the output keys are the base keys plus state and county, with no elided key and no None value |
| Counties.WithCountyRemoved | app/location.py:153-155 | merging state and county into an output without them, then removing them, gives the output back |
| Counties.CsbsExtendsBase | app/location.py:150-155 | removing state and county leaves exactly the base projection; the flag has no effect |
| Counties.CsbsOutputIsUs | app/location.py:127-139 | a CSBS output shows country "US" and latest (confirmed, deaths, 0) |
| Counties.NewNyt | app/location.py:167-171 | an NYT location has country "US", province = state, the code looked up for "US", latest (0, 0, 0) because no counters are passed, and its timelines serialized under the same kinds |
| Counties.NytSerialize | app/location.py:173-187 | the output keys are the timelined keys plus state and county, with no elided key and no None value |
| Counties.NytTimelinesMode | app/location.py:179 | timelines is present exactly when the flag is true, and then holds the serialized timelines |
| Counties.NytExtendsBase | app/location.py:179-184 | removing state, county and timelines leaves exactly the base projection |

## Left out

- Counties.CsbsSerialize: `state` and `county` are modelled as strings, so a `None` argument is not represented. The source merges them after the `exclude_none` filter, so it would emit such a `None` unfiltered.
- Counties.NytSerialize: `state` and `county` are modelled as strings, so a `None` argument is not represented. The source merges them after the `exclude_none` filter, so it would emit such a `None` unfiltered.

- `Coordinates.__str__` (app/location.py:20-21): it renders Python floats, and float formatting is not modelled.
- Float semantics: latitude and longitude are `real` values that are copied and never computed on.
- The contents of the country-code and population tables (`app/utils` is not part of this model). The lemmas that need facts about them state each fact as its own assumption: `CodesNonEmpty`, `CodesAreLetterPairs`, `NoMatchedSentinel` and `KnownCodesPopulated`, and, for `Locations.UnknownCountry` and `Projection.UnknownCountryOutput`, that "XX" has no population entry.
- Python `str.upper()` beyond ASCII: `Countries.Upper` maps only `a`-`z`.
- The `DEFAULT_COUNTRY_CODE` fallback of `values.get("country", …)`: it is reached only when `country` is missing, and then construction fails anyway.
- Timeline internals (`app/timeline` is not part of this model): a timeline is any value, and its `serialize()` is a function passed in.
- The `last_updated` default: the source reads the clock once, when the class is defined. It is the explicit input `Environment.defaultLastUpdated`.
- Pydantic type coercion, whitespace stripping, and validation errors other than a missing `id` or `country`: the model's inputs are already typed. This includes the error for an explicit `None` passed as `latitude`, `longitude`, `last_updated`, `confirmed`, `deaths` or `recovered`; the model treats it like an omitted argument.
- A partially filled `latest` dict: a supplied latest is a whole `Latest`, and an empty dict counts as not supplied.
- The order of keys in the output dicts: outputs are Dafny maps.
- Nested `exclude` specifications, and `include`, `by_alias` and the other pydantic `dict` options: `exclude` is a set of top-level keys.
- A non-boolean falsy `timelines` argument: the source tests it with `is False`, and the model's flag is a `bool`.
- `USLocation` (app/location.py:117-118): an empty subclass that adds nothing.
- app/io.py (file load/save), app/profiling.py (profiler mounting) and app/data/__init__.py (the service registry): I/O and web plumbing.
