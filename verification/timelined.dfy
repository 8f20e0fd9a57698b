/**
 `TimelinedLocation`: a base location plus a `timelines` field mapping each
 statistic kind to a timeline. Timelines come from `app/timeline`, which is
 not part of this model: a timeline is any value of type `T` and its
 `serialize()` is the function `serialize` the caller passes in.
 */
module Timelined {
  import opened Wrappers
  import opened Values
  import opened Locations
  import opened Projection

  /** A constructed `TimelinedLocation`; each timeline is already serialized. */
  datatype TimelinedLocation = TimelinedLocation(base: Location, timelines: map<Key, Value>)

  /** The error `dict.pop` raises when the key is absent. */
  datatype KeyError = KeyError(key: Key)

  /** `serialize_timelines`: every timeline replaced by its serialized form, kinds unchanged. */
  function SerializeTimelines<T>(d: map<Key, T>, serialize: T -> Value): (r: map<Key, Value>)
    ensures r.Keys == d.Keys
    ensures forall k :: k in d ==> r[k] == serialize(d[k])
  {
    map k | k in d :: serialize(d[k])
  }

  /**
   Constructing a `TimelinedLocation`: the base pipeline, then the
   `timelines` validator. The source derives `latest` from the raw counters
   here too, not from the timelines.
   */
  function NewTimelined<T>(raw: RawLocation, timelines: map<Key, T>, serialize: T -> Value, env: Environment)
    : (r: Result<TimelinedLocation, ValidationError>)
    requires CanonicalKeys(timelines.Keys)
    ensures r.Success? <==> Derive(raw, env).Success?
    ensures r.Failure? ==> r.error == Derive(raw, env).error
    ensures r.Success? ==> r.value.base == Derive(raw, env).value
    ensures r.Success? ==> r.value.timelines.Keys == timelines.Keys
    ensures r.Success? ==> forall k :: k in timelines ==> r.value.timelines[k] == serialize(timelines[k])
  {
    match Derive(raw, env)
    case Success(base) => Success(TimelinedLocation(base, SerializeTimelines(timelines, serialize)))
    case Failure(e) => Failure(e)
  }

  /** Every declared field of a `TimelinedLocation`. */
  function TimelinedFields(loc: TimelinedLocation): (r: map<Key, Value>)
  {
    LocationFields(loc.base)[TimelinesKey := Object(loc.timelines)]
  }

  /**
   `TimelinedLocation.dict(timelines=flag, exclude=exclude)`: the base
   projection, then `timelines` popped when the flag is false. The pop has
   no default, so it raises when the caller also excluded `timelines`.
   */
  function TimelinedDict(loc: TimelinedLocation, flag: bool, exclude: set<Key>)
    : (r: Result<map<Key, Value>, KeyError>)
    requires CanonicalKeys(exclude)
    ensures r.Failure? <==> !flag && TimelinesKey in exclude
    ensures r.Failure? ==> r.error == KeyError(TimelinesKey)
    ensures r.Success? ==> forall k :: k in Elided ==> k !in r.value
    ensures r.Success? ==> forall k :: k in exclude ==> k !in r.value
    ensures r.Success? ==> Dense(r.value)
  {
    var serialized := Dict(TimelinedFields(loc), exclude);
    if !flag then
      if TimelinesKey in serialized then Success(serialized - {TimelinesKey})
      else Failure(KeyError(TimelinesKey))
    else
      Success(serialized)
  }

  /**
   Adding an undeclared, non-raw field to a model adds at most that key to
   its dict, with its own value, and leaves the rest unchanged.
   */
  lemma DictWithField(fields: map<Key, Value>, k: Key, v: Value, exclude: set<Key>)
    requires CanonicalKeys(exclude)
    requires k !in fields && k !in Elided
    ensures k in Dict(fields[k := v], exclude) <==> k !in exclude && v != Null
    ensures k in Dict(fields[k := v], exclude) ==> Dict(fields[k := v], exclude)[k] == v
    ensures Dict(fields[k := v], exclude) - {k} == Dict(fields, exclude)
  {
    var rest := Dict(fields[k := v], exclude) - {k};
    assert rest.Keys == Dict(fields, exclude).Keys;
  }

  /**
   The timelines mode: `timelines` is present exactly when the flag is true
   (and the caller did not exclude it), and then holds the serialized
   timelines under the same kinds; every other key is the base projection.
   */
  lemma TimelinesMode(loc: TimelinedLocation, flag: bool, exclude: set<Key>)
    requires CanonicalKeys(exclude)
    requires TimelinedDict(loc, flag, exclude).Success?
    ensures TimelinesKey in TimelinedDict(loc, flag, exclude).value <==> flag && TimelinesKey !in exclude
    ensures TimelinesKey in TimelinedDict(loc, flag, exclude).value ==>
      TimelinedDict(loc, flag, exclude).value[TimelinesKey] == Object(loc.timelines)
    ensures TimelinedDict(loc, flag, exclude).value - {TimelinesKey} == BaseDict(loc.base, exclude)
  {
    DictWithField(LocationFields(loc.base), TimelinesKey, Object(loc.timelines), exclude);
    var r := TimelinedDict(loc, flag, exclude).value;
    assert r - {TimelinesKey} - {TimelinesKey} == r - {TimelinesKey};
  }

  /** The `KeyError` in the caller's terms: the flag is false and they excluded the name "timelines". */
  lemma TimelinedDictByName(loc: TimelinedLocation, flag: bool, names: set<string>)
    ensures TimelinedDict(loc, flag, ExcludeOf(names)).Failure? <==> !flag && "timelines" in names
  {
  }

  /** With the flag false and `timelines` not excluded, the output is exactly the base projection. */
  lemma TimelinesOmitted(loc: TimelinedLocation, exclude: set<Key>)
    requires CanonicalKeys(exclude)
    requires TimelinesKey !in exclude
    ensures TimelinedDict(loc, false, exclude) == Success(BaseDict(loc.base, exclude))
  {
    TimelinesMode(loc, false, exclude);
    var r := TimelinedDict(loc, false, exclude).value;
    assert r == r - {TimelinesKey};
  }
}
