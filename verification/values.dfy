/** The JSON-like values an entity is projected onto. */
module Values {

  /**
   A dict key. The field names the locations use have their own
   constructors; `Other` carries any other name.
   */
  datatype Key =
    | IdKey | CountryKey | CountryCodeKey | CountryPopulationKey | ProvinceKey
    | LatitudeKey | LongitudeKey | CoordinatesKey | LastUpdatedKey
    | ConfirmedKey | DeathsKey | RecoveredKey | LatestKey
    | TimelinesKey | StateKey | CountyKey
    | Other(name: string)

  /** The Python name of a key. */
  function Name(k: Key): (r: string)
  {
    match k
    case IdKey => "id"
    case CountryKey => "country"
    case CountryCodeKey => "country_code"
    case CountryPopulationKey => "country_population"
    case ProvinceKey => "province"
    case LatitudeKey => "latitude"
    case LongitudeKey => "longitude"
    case CoordinatesKey => "coordinates"
    case LastUpdatedKey => "last_updated"
    case ConfirmedKey => "confirmed"
    case DeathsKey => "deaths"
    case RecoveredKey => "recovered"
    case LatestKey => "latest"
    case TimelinesKey => "timelines"
    case StateKey => "state"
    case CountyKey => "county"
    case Other(name) => name
  }

  /** The names that have their own constructor. */
  const Reserved: set<string> := {
    "id", "country", "country_code", "country_population", "province", "latitude", "longitude",
    "coordinates", "last_updated", "confirmed", "deaths", "recovered", "latest", "timelines",
    "state", "county"}

  /**
   The one encoding of a name: a reserved name is always written with its
   own constructor, never as `Other`.
   */
  predicate Canonical(k: Key)
  {
    k.Other? ==> k.name !in Reserved
  }

  /** Every key of `s` is canonical. */
  predicate CanonicalKeys(s: set<Key>)
  {
    forall k :: k in s ==> Canonical(k)
  }

  /** A reserved name is the name of a constructor other than `Other`. */
  lemma ReservedName(k: Key)
    ensures !k.Other? ==> Name(k) in Reserved
    ensures Canonical(k) && k.Other? ==> Name(k) !in Reserved
  {
  }

  /** On canonical keys, `Name` is injective: two keys with one name are the same key. */
  lemma NameInjective(a: Key, b: Key)
    requires Canonical(a) && Canonical(b)
    requires Name(a) == Name(b)
    ensures a == b
  {
    ReservedName(a);
    ReservedName(b);
  }

  /** The canonical key of a Python name. */
  function KeyOf(name: string): (k: Key)
    ensures Canonical(k) && Name(k) == name
  {
    if name == "id" then IdKey
    else if name == "country" then CountryKey
    else if name == "country_code" then CountryCodeKey
    else if name == "country_population" then CountryPopulationKey
    else if name == "province" then ProvinceKey
    else if name == "latitude" then LatitudeKey
    else if name == "longitude" then LongitudeKey
    else if name == "coordinates" then CoordinatesKey
    else if name == "last_updated" then LastUpdatedKey
    else if name == "confirmed" then ConfirmedKey
    else if name == "deaths" then DeathsKey
    else if name == "recovered" then RecoveredKey
    else if name == "latest" then LatestKey
    else if name == "timelines" then TimelinesKey
    else if name == "state" then StateKey
    else if name == "county" then CountyKey
    else Other(name)
  }

  /** `KeyOf` inverts `Name` on canonical keys. */
  lemma KeyOfName(k: Key)
    requires Canonical(k)
    ensures KeyOf(Name(k)) == k
  {
    NameInjective(KeyOf(Name(k)), k);
  }

  /**
   A Python `exclude` set of names as keys: a canonical key is in it
   exactly when its name is.
   */
  function ExcludeOf(names: set<string>): (r: set<Key>)
    ensures CanonicalKeys(r)
    ensures forall k :: Canonical(k) ==> (k in r <==> Name(k) in names)
  {
    var r := set n | n in names :: KeyOf(n);
    assert forall k :: Canonical(k) ==> (k in r <==> Name(k) in names) by {
      forall k | Canonical(k)
        ensures k in r <==> Name(k) in names
      {
        KeyOfName(k);
      }
    }
    r
  }

  /** A serialized value: Python `None`, an int, a float, a string or a dict. */
  datatype Value =
    | Null
    | Int(i: int)
    | Float(f: real)
    | Str(s: string)
    | Object(fields: map<Key, Value>)

  /** A projection in which no top-level key maps to `None`. */
  ghost predicate Dense(m: map<Key, Value>)
  {
    forall k :: k in m ==> m[k] != Null
  }
}
