/**
 * The client decoder's custom date strategy: a timestamp is a JSON string read
 * first as ISO 8601 with fractional seconds and, only when that fails, as
 * ISO 8601 without them. The two formatters are foreign code, so they are
 * parameters here: two partial parse functions into an abstract instant.
 */
module Timestamps {
  import opened Wrappers
  import opened Json

  /** A point in time; its representation is the formatters' business. */
  datatype Instant = Instant(sinceReferenceDate: int)

  /** The two `ISO8601DateFormatter` configurations the strategy tries, in order. */
  datatype DateFormats = DateFormats(
    withFractionalSeconds: string -> Option<Instant>,
    withoutFractionalSeconds: string -> Option<Instant>)

  /** The message of the error thrown when neither format accepts the string. */
  function CannotDecode(text: string): (message: string)
    ensures |message| == 20 + |text| && message[20..] == text
  {
    "Cannot decode date: " + text
  }

  /** The `.custom` date decoding closure. */
  function DecodeDate(v: Json, formats: DateFormats): (r: Decoded<Instant>)
    ensures !v.JString? ==> r.Err?
    ensures v.JString? && formats.withFractionalSeconds(v.s).Some? ==>
      r == Ok(formats.withFractionalSeconds(v.s).value)
    ensures v.JString? && formats.withFractionalSeconds(v.s).None? && formats.withoutFractionalSeconds(v.s).Some? ==>
      r == Ok(formats.withoutFractionalSeconds(v.s).value)
    ensures v.JString? && formats.withFractionalSeconds(v.s).None? && formats.withoutFractionalSeconds(v.s).None? ==>
      r == Err(DataCorrupted(CannotDecode(v.s)))
    ensures v.JString? && r.Err? ==> r == Err(DataCorrupted(CannotDecode(v.s)))
  {
    var text :- AsString(v);
    match formats.withFractionalSeconds(text)
    case Some(date) => Ok(date)
    case None =>
      match formats.withoutFractionalSeconds(text)
      case Some(date) => Ok(date)
      case None => Err(DataCorrupted(CannotDecode(text)))
  }

  /**
   * `stamp` writes every instant as a string that one of the two formats reads
   * back to that instant: the way the server is expected to write timestamps.
   */
  ghost predicate Renders(formats: DateFormats, stamp: Instant -> string) {
    forall t :: DecodeDate(JString(stamp(t)), formats) == Ok(t)
  }

  /** `DecodeDate` as a property decoder. */
  function DateDecoder(formats: DateFormats): Json -> Decoded<Instant> {
    v => DecodeDate(v, formats)
  }

  /** How `stamp` writes a timestamp property. */
  function DateEncoder(stamp: Instant -> string): Instant -> Json {
    t => JString(stamp(t))
  }
}
