/** The value dispatch of include/epics/ca/ca_pv.h: `extract_as<T>`,
    `GetAs<T>` on a given cached value, and the outcome of `GetHandlerAs<T>`. */
module PVConversion {
  import opened Wrappers
  import opened PVTypes
  import opened PVDecode

  /** Conversion of a real toward zero, as C++ does for a floating-to-integer
      `static_cast`. */
  function TruncToZero(r: real): (t: int)
    ensures r >= 0.0 ==> 0 <= t && t as real <= r < t as real + 1.0
    ensures r < 0.0 ==> t <= 0 && t as real - 1.0 < r <= t as real
  {
    if r >= 0.0 then r.Floor else -((-r).Floor)
  }

  /** `static_cast<int32_t>` of a floating value. Out of range the cast is
      undefined in C++; the model then yields INT32_MIN, the value x86
      conversion instructions produce. */
  function RealToInt32(r: real): int32
  {
    var t := TruncToZero(r);
    if -0x8000_0000 <= t < 0x8000_0000 then t as int32 else -0x8000_0000
  }

  /** `static_cast<uint16_t>` of an integer: reduction modulo 2^16. */
  function IntToUInt16(x: int): uint16
  {
    (x % 0x1_0000) as uint16
  }

  /** The `static_cast<T>(val)` of the numeric branch of `extract_as`, for a
      numeric stored value and a numeric target. */
  function CastScalar(v: PVScalarValue, k: ScalarKind): (r: PVScalarValue)
    requires IsNumeric(KindOf(v)) && IsNumeric(k)
    ensures KindOf(r) == k
    ensures KindOf(v) == k ==> r == v
  {
    match k
    case Int32Kind =>
      (match v
       case Int32Value(i) => v
       case FloatValue(f) => Int32Value(RealToInt32(f))
       case DoubleValue(d) => Int32Value(RealToInt32(d))
       case UInt16Value(u) => Int32Value(u as int32))
    case FloatKind =>
      (match v
       case Int32Value(i) => FloatValue(i as real)
       case FloatValue(f) => v
       case DoubleValue(d) => FloatValue(d)
       case UInt16Value(u) => FloatValue(u as real))
    case DoubleKind =>
      (match v
       case Int32Value(i) => DoubleValue(i as real)
       case FloatValue(f) => DoubleValue(f)
       case DoubleValue(d) => v
       case UInt16Value(u) => DoubleValue(u as real))
    case UInt16Kind =>
      (match v
       case Int32Value(i) => UInt16Value(IntToUInt16(i as int))
       case FloatValue(f) => UInt16Value(IntToUInt16(RealToInt32(f) as int))
       case DoubleValue(d) => UInt16Value(IntToUInt16(RealToInt32(d) as int))
       case UInt16Value(u) => v)
  }

  /** The conversion table: which (stored kind, requested kind) pairs
      `extract_as` accepts. Text converts only to text; every numeric kind
      converts to every numeric kind. */
  predicate Convertible(from: ScalarKind, to: ScalarKind)
  {
    match (from, to)
    case (StringKind, StringKind) => true
    case (StringKind, _) => false
    case (_, StringKind) => false
    case (_, _) => true
  }

  /** `extract_as<T>(d)`: the exact alternative unchanged; otherwise, for a
      numeric T, a cast of any numeric alternative; otherwise (a string
      stored for a numeric T, a number stored for T = string, or an array
      value) the "unsupported DBR type" error. */
  function ExtractAs(d: PVData, k: ScalarKind): (r: Result<PVScalarValue, Error>)
    ensures r.Ok? <==> d.value.Scalar? && Convertible(KindOf(d.value.scalar), k)
    ensures r.Ok? ==> KindOf(r.value) == k
    ensures d.value.Scalar? && KindOf(d.value.scalar) == k ==> r == Ok(d.value.scalar)
    ensures r.Err? ==> r.error == UnsupportedDbrType
  {
    match d.value
    case Array(_) => Err(UnsupportedDbrType)
    case Scalar(pv) =>
      if KindOf(pv) == k then Ok(pv)
      else if IsNumeric(k) then
        if IsNumeric(KindOf(pv)) then Ok(CastScalar(pv, k)) else Err(UnsupportedDbrType)
      else if k == StringKind && pv.StringValue? then Ok(pv)
      else Err(UnsupportedDbrType)
  }

  /** Whether a sample has the C++ type `T` that the target names. */
  predicate SampleFits(s: Sample, t: Target)
  {
    match t
    case WholeData => s.DataSample?
    case AsKind(k) => s.ScalarSample? && KindOf(s.scalar) == k
  }

  /** `GetAs<T>` applied to a cached value: `PVData` is returned as it is,
      any other `T` goes through `extract_as`. */
  function Convert(d: PVData, t: Target): (r: Result<Sample, Error>)
    ensures t.WholeData? ==> r == Ok(DataSample(d))
    ensures t.AsKind? ==> (r.Ok? <==> ExtractAs(d, t.kind).Ok?)
    ensures t.AsKind? && r.Ok? ==> r.value == ScalarSample(ExtractAs(d, t.kind).value)
    ensures r.Ok? ==> SampleFits(r.value, t)
    ensures r.Err? ==> r.error == UnsupportedDbrType
  {
    match t
    case WholeData => Ok(DataSample(d))
    case AsKind(k) =>
      match ExtractAs(d, k)
      case Ok(v) => Ok(ScalarSample(v))
      case Err(e) => Err(e)
  }

  /** What a call of `GetHandlerAs<T>` does: nothing, throw, or invoke the
      user callback (once) with a sample. */
  datatype HandlerOutcome = NoCall | Raised(error: Error) | Invoke(sample: Sample)

  /** `GetHandlerAs<T>(args)`. The context it reclaims may be null or may
      have a null `self`; the status, tag and buffer come from the library. */
  function GetHandlerAs(hasCtx: bool, hasSelf: bool, status: int, tag: int, dbr: DbrBuffer, t: Target): (r: HandlerOutcome)
    ensures !hasCtx || !hasSelf ==> r == NoCall
    ensures hasCtx && hasSelf && status != ECA_NORMAL ==> r == Raised(GetCallbackStatus)
    ensures r.Invoke? <==> hasCtx && hasSelf && status == ECA_NORMAL && DecodedKind(tag).Some?
                           && (t.AsKind? ==> Convertible(DecodedKind(tag).value, t.kind))
    ensures r.Invoke? ==> SampleFits(r.sample, t)
    ensures r.Invoke? && t.WholeData? ==> r.sample == DataSample(DecodePVScalar(tag, dbr).value)
    ensures r.Invoke? && t.AsKind? ==>
              r.sample == ScalarSample(ExtractAs(DecodePVScalar(tag, dbr).value, t.kind).value)
    ensures r.Raised? && status == ECA_NORMAL ==> r.error == UnsupportedDbrType
  {
    if !hasCtx || !hasSelf then NoCall
    else if status != ECA_NORMAL then Raised(GetCallbackStatus)
    else
      match DecodePVScalar(tag, dbr)
      case Err(e) => Raised(e)
      case Ok(sample) =>
        match Convert(sample, t)
        case Ok(v) => Invoke(v)
        case Err(e) => Raised(e)
  }

  /** The get callback and `GetAs` agree: a successful get hands the
      callback exactly what `GetAs<T>` would return had the decoded data been
      cached, and an unconvertible value raises the error `GetAs` reports. */
  lemma HandlerAgreesWithGetAs(tag: int, dbr: DbrBuffer, t: Target)
    requires DecodePVScalar(tag, dbr).Ok?
    ensures var cached := Convert(DecodePVScalar(tag, dbr).value, t);
            var r := GetHandlerAs(true, true, ECA_NORMAL, tag, dbr, t);
            && (cached.Ok? ==> r == Invoke(cached.value))
            && (cached.Err? ==> r == Raised(cached.error))
  {
  }

  /** A get of an int32 from a `longout` record hands the callback the
      buffer's `long` view unchanged, and read as a double the same number. */
  lemma LongDelivered(dbr: DbrBuffer)
    ensures GetHandlerAs(true, true, ECA_NORMAL, DBR_TIME_LONG, dbr, AsKind(Int32Kind))
         == Invoke(ScalarSample(Int32Value(dbr.longValue)))
    ensures GetHandlerAs(true, true, ECA_NORMAL, DBR_TIME_LONG, dbr, AsKind(DoubleKind))
         == Invoke(ScalarSample(DoubleValue(dbr.longValue as real)))
  {
  }

  /** A sample read as its own kind comes back unchanged, so a round trip
      through `PVData` is the identity. */
  lemma ExtractOwnKind(v: PVScalarValue, meta: PVMeta, count: nat)
    ensures ExtractAs(PVData(Scalar(v), meta, count), KindOf(v)) == Ok(v)
  {
  }

  /** An int32 widened to a double and read back as int32 is unchanged; so is
      an enum index read through int32. */
  lemma {:induction false} WideningRoundTrips(i: int32, u: uint16)
    ensures CastScalar(CastScalar(Int32Value(i), DoubleKind), Int32Kind) == Int32Value(i)
    ensures CastScalar(CastScalar(UInt16Value(u), Int32Kind), UInt16Kind) == UInt16Value(u)
  {
    assert TruncToZero(i as real) == i as int;
  }

  /** Narrowing an int32 to an enum index keeps its residue modulo 2^16:
      values in range pass unchanged, and a small negative value wraps to
      the top of the range. */
  lemma NarrowingToEnum(i: int32)
    ensures (CastScalar(Int32Value(i), UInt16Kind).u as int - i as int) % 0x1_0000 == 0
    ensures 0 <= i < 0x1_0000 ==> CastScalar(Int32Value(i), UInt16Kind).u as int == i as int
    ensures -0x1_0000 <= i < 0 ==> CastScalar(Int32Value(i), UInt16Kind).u as int == i as int + 0x1_0000
  {
  }

  /** A floating value outside the enum range, where C++ leaves the cast
      undefined, is truncated to int32 and then reduced modulo 2^16. */
  lemma FloatToEnumOutOfRange()
    ensures CastScalar(DoubleValue(-1.0), UInt16Kind) == UInt16Value(65535)
    ensures CastScalar(DoubleValue(70000.0), UInt16Kind) == UInt16Value(4464)
    ensures CastScalar(DoubleValue(5000000000.0), UInt16Kind) == UInt16Value(0)
  {
    assert TruncToZero(-1.0) == -1;
    assert TruncToZero(70000.0) == 70000;
    assert TruncToZero(5000000000.0) == 5000000000;
  }

  /** Before any update a handle caches `PVData{}`: read as a number it is
      zero, read as text it throws. */
  lemma DefaultDataReads(k: ScalarKind)
    ensures k == StringKind ==> ExtractAs(DefaultPVData, k) == Err(UnsupportedDbrType)
    ensures k == Int32Kind ==> ExtractAs(DefaultPVData, k) == Ok(Int32Value(0))
    ensures k == DoubleKind ==> ExtractAs(DefaultPVData, k) == Ok(DoubleValue(0.0))
    ensures k == FloatKind ==> ExtractAs(DefaultPVData, k) == Ok(FloatValue(0.0))
    ensures k == UInt16Kind ==> ExtractAs(DefaultPVData, k) == Ok(UInt16Value(0))
  {
  }
}
