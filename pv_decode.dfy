/** `CAPV::DecodePVScalar` (src/epics/ca/ca_pv.cpp): turning the buffer a
    Channel Access get callback delivers into a `PVData`. */
module PVDecode {
  import opened Wrappers
  import opened PVTypes

  // The DBR_TIME_* request types of the Channel Access client library
  // (db_access.h); DBR_TIME_INT is another name for DBR_TIME_SHORT.
  const DBR_TIME_STRING: int := 14
  const DBR_TIME_INT: int := 15
  const DBR_TIME_FLOAT: int := 16
  const DBR_TIME_ENUM: int := 17
  const DBR_TIME_CHAR: int := 18
  const DBR_TIME_LONG: int := 19
  const DBR_TIME_DOUBLE: int := 20

  /** The memory `dbr` points at, as read through each of the `dbr_time_*`
      structs the switch may cast it to. The client library fills it in; only
      the view selected by the tag is read. */
  datatype DbrBuffer = DbrBuffer(
    status: int,
    severity: int,
    stamp: int,
    stringValue: seq<char>,   // dbr_time_string::value (a char[40])
    shortValue: int16,        // dbr_time_short::value
    floatValue: real,         // dbr_time_float::value
    enumValue: uint16,        // dbr_time_enum::value
    longValue: int32,         // dbr_time_long::value
    doubleValue: real)        // dbr_time_double::value

  /** The tag-to-kind table of the switch: the kind of the scalar a
      successful decode produces, or None for a tag the switch rejects. */
  function DecodedKind(tag: int): Option<ScalarKind>
  {
    if tag == DBR_TIME_STRING then Some(StringKind)
    else if tag == DBR_TIME_DOUBLE then Some(DoubleKind)
    else if tag == DBR_TIME_FLOAT then Some(FloatKind)
    else if tag == DBR_TIME_LONG then Some(Int32Kind)
    else if tag == DBR_TIME_INT then Some(Int32Kind)
    else if tag == DBR_TIME_ENUM then Some(UInt16Kind)
    else None
  }

  /** The `std::string` built from a NUL-terminated character array: the
      characters before the first NUL (all of them when there is none). */
  function CString(buf: seq<char>): (s: seq<char>)
    ensures |s| <= |buf| && s == buf[..|s|]
    ensures forall i :: 0 <= i < |s| ==> s[i] != '\0'
    ensures |s| < |buf| ==> buf[|s|] == '\0'
  {
    if buf == [] || buf[0] == '\0' then [] else [buf[0]] + CString(buf[1..])
  }

  /** `DecodePVScalar(type, dbr)`: starts from `PVData{}` and sets only
      `value`, so the metadata and count keep their defaults; an `int16`
      short is widened to the int32 alternative; any other tag throws. */
  function DecodePVScalar(tag: int, dbr: DbrBuffer): (r: Result<PVData, Error>)
    ensures r.Ok? <==> DecodedKind(tag).Some?
    ensures r.Err? ==> r.error == UnsupportedDbrType
    ensures r.Ok? ==> r.value.meta == DefaultMeta && r.value.count == 0
    ensures r.Ok? ==> r.value.value.Scalar? && KindOf(r.value.value.scalar) == DecodedKind(tag).value
  {
    var scalar :=
      if tag == DBR_TIME_STRING then Some(StringValue(CString(dbr.stringValue)))
      else if tag == DBR_TIME_DOUBLE then Some(DoubleValue(dbr.doubleValue))
      else if tag == DBR_TIME_FLOAT then Some(FloatValue(dbr.floatValue))
      else if tag == DBR_TIME_LONG then Some(Int32Value(dbr.longValue))
      else if tag == DBR_TIME_INT then Some(Int32Value(dbr.shortValue as int32))
      else if tag == DBR_TIME_ENUM then Some(UInt16Value(dbr.enumValue))
      else None;
    match scalar
    case Some(v) => Ok(DefaultPVData.(value := Scalar(v)))
    case None => Err(UnsupportedDbrType)
  }

  /** The decoded value is the one stored in the view the tag selects, with
      no change of magnitude; DBR_TIME_CHAR, although a TIME type, throws. */
  lemma DecodeReadsSelectedView(tag: int, dbr: DbrBuffer)
    ensures tag == DBR_TIME_LONG ==> DecodePVScalar(tag, dbr).value.value.scalar.i == dbr.longValue
    ensures tag == DBR_TIME_INT ==> DecodePVScalar(tag, dbr).value.value.scalar.i as int == dbr.shortValue as int
    ensures tag == DBR_TIME_ENUM ==> DecodePVScalar(tag, dbr).value.value.scalar.u == dbr.enumValue
    ensures tag == DBR_TIME_DOUBLE ==> DecodePVScalar(tag, dbr).value.value.scalar.d == dbr.doubleValue
    ensures tag == DBR_TIME_FLOAT ==> DecodePVScalar(tag, dbr).value.value.scalar.f == dbr.floatValue
    ensures tag == DBR_TIME_STRING ==> DecodePVScalar(tag, dbr).value.value.scalar.s == CString(dbr.stringValue)
    ensures DecodePVScalar(DBR_TIME_CHAR, dbr) == Err(UnsupportedDbrType)
  {
  }

  /** The buffer's status, severity and time stamp never reach the result:
      two buffers that agree on their value views decode alike. */
  lemma DecodeDropsMetadata(tag: int, a: DbrBuffer, b: DbrBuffer)
    requires a.(status := b.status, severity := b.severity, stamp := b.stamp) == b
    ensures DecodePVScalar(tag, a) == DecodePVScalar(tag, b)
  {
  }
}
