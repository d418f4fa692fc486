/**
 * User records: the loosely shaped objects the demographic-data API returns,
 * and the fixed seven-property shape that every record is normalised to.
 */
module Users {
  import opened Wrappers

  /** A string leaf of a raw record: None when the property is missing, null or undefined. */
  type Field = Option<string>

  /** JavaScript truthiness of a string leaf: present and not the empty string. */
  predicate Truthy(f: Field) {
    f.Some? && f.value != ""
  }

  datatype RawId = RawId(value: Field)
  datatype RawName = RawName(first: Field, last: Field)
  datatype RawLocation = RawLocation(country: Field, city: Field)
  datatype RawRegistered = RawRegistered(date: Field)
  datatype RawPicture = RawPicture(thumbnail: Field)

  /** One element of `data.results`; a nested object is None when it is missing, null or undefined. */
  datatype RawUser = RawUser(
    id: Option<RawId>,
    name: Option<RawName>,
    email: Field,
    phone: Field,
    location: Option<RawLocation>,
    registered: Option<RawRegistered>,
    picture: Option<RawPicture>)

  /**
   * An element of the `results` array: null or undefined (reading a property of it
   * throws a TypeError) or an object. A primitive element reads as an object without
   * properties.
   */
  datatype RawEntry = Nullish | Entry(user: RawUser)

  datatype Name = Name(first: string, last: string)
  datatype Location = Location(country: string, city: string)

  /** A normalised record: every property present; `id.value` is a string or null (None). */
  datatype User = User(
    id: Option<string>,
    name: Name,
    email: string,
    phone: string,
    location: Location,
    registeredDate: string,
    thumbnail: string)

  /** The nine leaves of a record, named by their property paths. */
  datatype Path = IdValue | NameFirst | NameLast | Email | Phone
                | LocationCountry | LocationCity | RegisteredDate | PictureThumbnail

  /** `raw?.a?.b` for the leaf at path p (optional chaining yields undefined on a missing object). */
  function RawAt(raw: RawUser, p: Path): Field {
    match p
    case IdValue => if raw.id.Some? then raw.id.value.value else None
    case NameFirst => if raw.name.Some? then raw.name.value.first else None
    case NameLast => if raw.name.Some? then raw.name.value.last else None
    case Email => raw.email
    case Phone => raw.phone
    case LocationCountry => if raw.location.Some? then raw.location.value.country else None
    case LocationCity => if raw.location.Some? then raw.location.value.city else None
    case RegisteredDate => if raw.registered.Some? then raw.registered.value.date else None
    case PictureThumbnail => if raw.picture.Some? then raw.picture.value.thumbnail else None
  }

  /** The leaf at path p of a normalised record; None is null. */
  function UserAt(u: User, p: Path): Field {
    match p
    case IdValue => u.id
    case NameFirst => Some(u.name.first)
    case NameLast => Some(u.name.last)
    case Email => Some(u.email)
    case Phone => Some(u.phone)
    case LocationCountry => Some(u.location.country)
    case LocationCity => Some(u.location.city)
    case RegisteredDate => Some(u.registeredDate)
    case PictureThumbnail => Some(u.thumbnail)
  }

  /** The value `||` falls back to: null for `id.value`, the empty string elsewhere. */
  function Default(p: Path): Field {
    if p == IdValue then None else Some("")
  }

  /** A record in normal form: its id is null or a non-empty string. */
  predicate Normal(u: User) {
    u.id != Some("")
  }

  /** `f || ''` */
  function OrEmpty(f: Field): string {
    if Truthy(f) then f.value else ""
  }

  /** The normalising lambda of loadUsers, applied to one object of `data.results`. */
  function Normalize(raw: RawUser): (u: User)
    ensures forall p :: UserAt(u, p) == if Truthy(RawAt(raw, p)) then RawAt(raw, p) else Default(p)
    ensures forall p :: p != IdValue ==> UserAt(u, p).Some?
    ensures Normal(u)
  {
    var id := if raw.id.Some? && Truthy(raw.id.value.value) then Some(raw.id.value.value.value) else None;
    var name := match raw.name
      case None => Name("", "")
      case Some(n) => Name(OrEmpty(n.first), OrEmpty(n.last));
    var location := match raw.location
      case None => Location("", "")
      case Some(l) => Location(OrEmpty(l.country), OrEmpty(l.city));
    var date := if raw.registered.Some? then OrEmpty(raw.registered.value.date) else "";
    var thumbnail := if raw.picture.Some? then OrEmpty(raw.picture.value.thumbnail) else "";
    User(id, name, OrEmpty(raw.email), OrEmpty(raw.phone), location, date, thumbnail)
  }

  /** A normalised record seen again as a raw object: every property present. */
  function AsRaw(u: User): (raw: RawUser)
    ensures forall p :: RawAt(raw, p) == UserAt(u, p)
  {
    RawUser(
      Some(RawId(u.id)),
      Some(RawName(Some(u.name.first), Some(u.name.last))),
      Some(u.email),
      Some(u.phone),
      Some(RawLocation(Some(u.location.country), Some(u.location.city))),
      Some(RawRegistered(Some(u.registeredDate))),
      Some(RawPicture(Some(u.thumbnail))))
  }

  /** Normalising a record that is already in normal form gives it back unchanged. */
  lemma NormalizeAsRaw(u: User)
    requires Normal(u)
    ensures Normalize(AsRaw(u)) == u
  {
  }

  /** Normalisation is idempotent. */
  lemma NormalizeIdempotent(raw: RawUser)
    ensures Normalize(AsRaw(Normalize(raw))) == Normalize(raw)
  {
    NormalizeAsRaw(Normalize(raw));
  }

  /**
   * `data.results.map(...)`: the records in order, or None when reading a property of a
   * null or undefined element throws, which discards the whole mapping.
   */
  function NormalizeResults(results: seq<RawEntry>): (r: Option<seq<User>>)
    ensures r.Some? <==> forall i :: 0 <= i < |results| ==> results[i].Entry?
    ensures r.Some? ==> |r.value| == |results|
    ensures r.Some? ==> forall i :: 0 <= i < |results| ==> r.value[i] == Normalize(results[i].user)
  {
    if results == [] then Some([])
    else if results[0].Nullish? then None
    else match NormalizeResults(results[1..])
      case None => None
      case Some(rest) => Some([Normalize(results[0].user)] + rest)
  }
}
