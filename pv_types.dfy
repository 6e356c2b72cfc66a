/** The value types of include/epics/types.h and the error taxonomy of the core. */
module PVTypes {

  newtype int16 = x: int | -0x8000 <= x < 0x8000
  newtype int32 = x: int | -0x8000_0000 <= x < 0x8000_0000
  newtype uint16 = x: int | 0 <= x < 0x1_0000
  newtype uint32 = x: int | 0 <= x < 0x1_0000_0000

  /** The five alternatives of `PVScalarValue`, in declaration order. */
  datatype ScalarKind = Int32Kind | FloatKind | DoubleKind | UInt16Kind | StringKind

  /** `PVScalarValue`: exactly one of the five kinds is held. Floating-point
      values are modelled as reals: rounding, NaN and infinities are not. */
  datatype PVScalarValue =
    | Int32Value(i: int32)      // DBF_LONG
    | FloatValue(f: real)       // DBF_FLOAT
    | DoubleValue(d: real)      // DBF_DOUBLE
    | UInt16Value(u: uint16)    // DBF_ENUM (index)
    | StringValue(s: string)    // DBF_STRING

  /** `PVArrayValue`: carried by the data model, refused by every conversion. */
  datatype PVArrayValue =
    | Int32Array(ints: seq<int32>)
    | FloatArray(floats: seq<real>)
    | DoubleArray(doubles: seq<real>)
    | UInt16Array(enums: seq<uint16>)
    | StringArray(strings: seq<string>)

  /** `std::variant<PVScalarValue, PVArrayValue>`: a scalar or an array, never both. */
  datatype PVValue = Scalar(scalar: PVScalarValue) | Array(array: PVArrayValue)

  /** `PVMeta`; the timestamp is a time point counted from the clock's epoch. */
  datatype PVMeta = PVMeta(severity: uint32, status: uint32, timestamp: int)

  datatype PVData = PVData(value: PVValue, meta: PVMeta, count: nat)

  /** The zero-initialised metadata: severity 0, status 0, the epoch. */
  const DefaultMeta: PVMeta := PVMeta(0, 0, 0)

  /** A value-initialised `PVData{}`: each variant holds its first alternative
      (so the scalar int32 0), default metadata and count 0. */
  const DefaultPVData: PVData := PVData(Scalar(Int32Value(0)), DefaultMeta, 0)

  function KindOf(v: PVScalarValue): ScalarKind
  {
    match v
    case Int32Value(_) => Int32Kind
    case FloatValue(_) => FloatKind
    case DoubleValue(_) => DoubleKind
    case UInt16Value(_) => UInt16Kind
    case StringValue(_) => StringKind
  }

  /** The kinds for which `extract_as` has a numeric cast branch. */
  predicate IsNumeric(k: ScalarKind)
  {
    k != StringKind
  }

  /** The template argument `T` of `GetAs<T>`, `GetCBAs<T>` and the nodes:
      either `PVData` itself or one of the scalar kinds. */
  datatype Target = WholeData | AsKind(kind: ScalarKind)

  /** A value of type `T`. */
  datatype Sample = DataSample(data: PVData) | ScalarSample(scalar: PVScalarValue)

  /** The exceptions the core throws, one constructor per distinct cause. */
  datatype Error =
    | UnsupportedDbrType           // extract_as, DecodePVScalar
    | GetCallbackStatus            // GetHandlerAs with a non-normal status
    | ChannelCreateFailed          // CAPV::Connect
    | ContextCreateFailed          // CAContextManager::Init
    | NullCurrentContext           // CAContextManager::Init
    | AttachFailed                 // CAContextManager::EnsureAttached
    | MissingInput(port: string)   // onStart of both nodes
    | GetIssueFailed               // CAGetNode: GetCBAs returned false
    | PutIssueFailed               // CAPutNode: PutCB returned false
    | PromiseAlreadySatisfied      // CAGetNode: second set_value on one promise

  /** The Channel Access status code for success. */
  const ECA_NORMAL: int := 1
}
