/** The nullable column wrappers of nullabledb/nullabledb.go: NullInt64,
    NullBool, NullString and NullDate each hold a payload and a `Valid` flag,
    scan a database value (nil meaning NULL), and read and write JSON with
    `null` standing for an invalid value. The four types share their
    behaviour, so one generic class models them; what differs is the payload
    type and its JSON codec, which `encoding/json` supplies and which stays
    abstract here, and NullDate's own Scan. */
module Nullable {
  import opened Wrappers
  import opened GoInt
  import opened RestErrors
  import opened Dates

  /** The value a database driver hands to Scan: NULL, a value the
      `sql.Null*` conversion accepts (already converted), or one it
      rejects. */
  datatype DriverValue<T> = Nil | Convertible(payload: T) | Unconvertible(cause: GoError)

  /** What `json.Unmarshal` does to a payload: store a decoded value, leave
      the payload alone (a JSON `null` not spelled exactly `null`, which
      `encoding/json` treats as a no-op), or fail. */
  datatype Decoded<T> = Stored(value: T) | Kept | Rejected(cause: GoError)

  /** The payload type's zero value and its `encoding/json` conversions. */
  datatype Codec<!T> = Codec(zero: T, encode: T -> string, decode: string -> Decoded<T>)

  /** The payload and flag of a wrapper; also the `sql.Null*` value Native
      returns. */
  datatype SqlNull<T> = SqlNull(payload: T, valid: bool)

  const NullJson := "null"

  /** A codec that never writes `null` for a real value and reads back what it
      writes, as `encoding/json` does for integers, booleans and strings. */
  ghost predicate FaithfulCodec<T(!new)>(c: Codec<T>)
  {
    forall v :: c.encode(v) != NullJson && c.decode(c.encode(v)) == Stored(v)
  }

  // ---------------------------------------------------------------------
  // The behaviour every wrapper shares, on values
  // ---------------------------------------------------------------------

  /** Scan: NULL gives the zero payload and `Valid=false`; a converted value
      gives that payload and `Valid=true`; a conversion error is returned and
      the wrapper keeps its old state. */
  function ScanValue<T>(zero: T, value: DriverValue<T>, before: SqlNull<T>): (r: (SqlNull<T>, Option<GoError>))
  {
    match value
    case Nil => (SqlNull(zero, false), None)
    case Convertible(v) => (SqlNull(v, true), None)
    case Unconvertible(e) => (before, Some(e))
  }

  /** MarshalJSON: `null` for an invalid value, whatever its payload. */
  function EncodeJson<T>(c: Codec<T>, s: SqlNull<T>): string
  {
    if !s.valid then NullJson else c.encode(s.payload)
  }

  /** UnmarshalJSON: exactly `null` resets to the zero payload and
      `Valid=false`; anything else is decoded into the payload and `Valid`
      records whether decoding succeeded. */
  function DecodeJson<T>(c: Codec<T>, b: string, before: SqlNull<T>): (r: (SqlNull<T>, Option<GoError>))
  {
    if b == NullJson then (SqlNull(c.zero, false), None)
    else
      match c.decode(b)
      case Stored(v) => (SqlNull(v, true), None)
      case Kept => (before.(valid := true), None)
      case Rejected(e) => (before.(valid := false), Some(e))
  }

  /** The null sentinel: a wrapper's JSON is `null` exactly when it is not
      valid. */
  lemma NullJsonIffInvalid<T(!new)>(c: Codec<T>, s: SqlNull<T>)
    requires FaithfulCodec(c)
    ensures EncodeJson(c, s) == NullJson <==> !s.valid
  {
    if s.valid {
      assert c.encode(s.payload) != NullJson;
    }
  }

  /** Writing an invalid wrapper and reading it back gives an invalid wrapper
      with the zero payload, whatever the payloads before. */
  lemma InvalidRoundTrip<T>(c: Codec<T>, s: SqlNull<T>, target: SqlNull<T>)
    requires !s.valid
    ensures DecodeJson(c, EncodeJson(c, s), target) == (SqlNull(c.zero, false), None)
  {
  }

  /** With a faithful codec, writing a valid wrapper and reading it back
      restores it exactly. */
  lemma ValidRoundTrip<T(!new)>(c: Codec<T>, s: SqlNull<T>, target: SqlNull<T>)
    requires FaithfulCodec(c) && s.valid
    ensures DecodeJson(c, EncodeJson(c, s), target) == (s, None)
  {
    assert c.encode(s.payload) != NullJson && c.decode(c.encode(s.payload)) == Stored(s.payload);
  }

  /** After a Scan that succeeds the wrapper is valid exactly when the
      database value was not NULL; a failed Scan changes nothing. */
  lemma ScanValidIffNotNull<T>(zero: T, value: DriverValue<T>, before: SqlNull<T>)
    ensures ScanValue(zero, value, before).1.None? ==> (ScanValue(zero, value, before).0.valid <==> !value.Nil?)
    ensures ScanValue(zero, value, before).1.None? <==> !value.Unconvertible?
    ensures ScanValue(zero, value, before).1.Some? ==> ScanValue(zero, value, before).0 == before
    ensures value.Nil? ==> ScanValue(zero, value, before).0.payload == zero
  {
  }

  /** UnmarshalJSON leaves the wrapper valid exactly when its input is not
      `null` and decodes, and reports an error exactly when decoding fails. */
  lemma DecodeValidIffDecodes<T>(c: Codec<T>, b: string, before: SqlNull<T>)
    ensures DecodeJson(c, b, before).0.valid <==> b != NullJson && !c.decode(b).Rejected?
    ensures DecodeJson(c, b, before).1.Some? <==> b != NullJson && c.decode(b).Rejected?
    ensures b == NullJson ==> DecodeJson(c, b, before).0.payload == c.zero
  {
  }

  // ---------------------------------------------------------------------
  // The wrappers as objects
  // ---------------------------------------------------------------------

  /** One of NullInt64, NullBool, NullString, NullDate: the Go struct's two
      fields, updated in place by Scan and UnmarshalJSON. */
  class NullValue<T> {
    const codec: Codec<T>
    var payload: T
    var valid: bool

    constructor (codec: Codec<T>, payload: T, valid: bool)
      ensures this.codec == codec && this.payload == payload && this.valid == valid
    {
      this.codec := codec;
      this.payload := payload;
      this.valid := valid;
    }

    function State(): SqlNull<T>
      reads this
    {
      SqlNull(payload, valid)
    }

    /** Scan of NullInt64, NullBool and NullString. */
    method Scan(value: DriverValue<T>) returns (err: Option<GoError>)
      modifies this
      ensures (State(), err) == ScanValue(codec.zero, value, old(State()))
    {
      match value {
        case Unconvertible(e) =>
          return Some(e);
        case Nil =>
          payload, valid := codec.zero, false;
        case Convertible(v) =>
          payload, valid := v, true;
      }
      return None;
    }

    /** MarshalJSON. */
    function MarshalJSON(): (b: string)
      reads this
      ensures b == EncodeJson(codec, State())
      ensures !valid ==> b == NullJson
    {
      if !valid then NullJson else codec.encode(payload)
    }

    /** UnmarshalJSON. */
    method UnmarshalJSON(b: string) returns (err: Option<GoError>)
      modifies this
      ensures (State(), err) == DecodeJson(codec, b, old(State()))
    {
      err := None;
      if b == NullJson {
        payload := codec.zero;
        valid := false;
      } else {
        match codec.decode(b) {
          case Stored(v) =>
            payload := v;
          case Kept =>
          case Rejected(e) =>
            err := Some(e);
        }
        valid := err.None?;
      }
    }

    /** Native: the `sql.Null*` value with the same payload and flag. */
    function Native(): (r: SqlNull<T>)
      reads this
      ensures r.payload == payload && r.valid == valid
    {
      SqlNull(payload, valid)
    }
  }

  type NullInt64 = NullValue<Int64>
  type NullBool = NullValue<bool>
  type NullString = NullValue<string>
  type NullDate = NullValue<string>

  // ---------------------------------------------------------------------
  // NullDate.Scan
  // ---------------------------------------------------------------------

  /** NullDate.Scan on values: NULL gives "" and `Valid=false`; a string
      whose leftmost date passes CheckDate stores that date's ten
      characters; any other string, or a value the string conversion
      rejects, is an error and changes nothing. */
  function ScanDateValue(value: DriverValue<string>, before: SqlNull<string>): (r: (SqlNull<string>, Option<GoError>))
  {
    match value
    case Nil => (SqlNull("", false), None)
    case Unconvertible(e) => (before, Some(e))
    case Convertible(s) =>
      match CheckDate(s)
      case Ok(w) => (SqlNull(w, true), None)
      case Err(e) => (before, Some(e))
  }

  /** A NullDate that Scan leaves valid holds a real date, written
      `dddd[.-]dd[.-]dd`: the leftmost such substring of the scanned text. */
  lemma ScannedDatesAreReal(value: DriverValue<string>, before: SqlNull<string>)
    requires ScanDateValue(value, before).1.None? && ScanDateValue(value, before).0.valid
    ensures value.Convertible?
    ensures var w := ScanDateValue(value, before).0.payload;
      DateShaped(w) && IsCalendarDate(WindowDate(w)) && FindDate(value.payload).Some? &&
      w == value.payload[FindDate(value.payload).value..FindDate(value.payload).value + 10]
  {
    CheckDateAcceptsExactlyRealDates(value.payload);
  }

  /** NullDate.Scan. */
  method ScanDate(nd: NullDate, value: DriverValue<string>) returns (err: Option<GoError>)
    modifies nd
    ensures (nd.State(), err) == ScanDateValue(value, old(nd.State()))
  {
    match value {
      case Unconvertible(e) =>
        return Some(e);
      case Nil =>
        nd.payload, nd.valid := "", false;
      case Convertible(s) =>
        var checked := CheckDate(s);
        if checked.Err? {
          return Some(checked.error);
        }
        nd.payload, nd.valid := checked.value, true;
    }
    return None;
  }
}
