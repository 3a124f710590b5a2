/** The numpy codec: `encode_numpy` turns ndarrays and numpy scalars into
    values the JSON engine can print, and `decode_numpy` rebuilds an ndarray
    from a tagged dict. Whether numpy can be imported is the parameter
    `numpyAvailable`. */
module NumpyLib {
  import opened Values

  const NDARRAY_KEY := "__ndarray__"
  const DTYPE_KEY := "dtype"
  const SHAPE_KEY := "shape"
  /** The element type used when a tagged dict has no "dtype" entry. */
  const DEFAULT_DTYPE := "float64"

  const MISSING_NUMPY_MSG := "JSON file contains numpy arrays; install numpy to load it"
  const RAGGED_MSG := "setting an array element with a sequence"
  const BAD_DTYPE_MSG := "Cannot interpret value as a data type"
  const NOT_ITERABLE_MSG := "argument is not iterable"
  const STR_INDEX_MSG := "string indices must be integers"
  const SEQ_INDEX_MSG := "indices must be integers or slices, not str"

  /** The shape numpy infers for a nested list of numbers: a number is a
      0-d array, a list of n equally shaped items has shape n :: that shape,
      and anything else (ragged nesting, non-numbers) is rejected. */
  function ShapeOf(v: Value): Option<seq<nat>>
    decreases v
  {
    if v.VList? || v.VTuple? then
      if |v.items| == 0 then Some([0])
      else
        var first := ShapeOf(v.items[0]);
        if first.Some? && forall i | 0 <= i < |v.items| :: ShapeOf(v.items[i]) == first
        then Some([|v.items|] + first.value)
        else None
    else if IsNumber(v) then Some([])
    else None
  }

  /** What `ndarray.tolist()` can return: a number or a list of them,
      nested. */
  predicate NestedNumbers(v: Value)
    decreases v
  {
    if v.VList? then forall i | 0 <= i < |v.items| :: NestedNumbers(v.items[i])
    else IsNumber(v)
  }

  /** An ndarray whose shape is the one numpy infers from its `tolist()`
      data. This leaves out arrays with a zero-length dimension followed by
      further dimensions: `np.zeros((0, 3)).tolist()` is `[]`, from which
      only the shape (0,) can be inferred (see EmptyLeadingDimensionLost). */
  predicate WellFormed(a: Value)
  {
    a.NdArray? && NestedNumbers(a.data) && ShapeOf(a.data) == Some(a.shape)
  }

  /** The numpy scalar types `encode_numpy` converts. */
  predicate IsNumpyScalar(v: Value)
  {
    v.NpBool? || v.NpInt? || v.NpFloat?
  }

  /** A shape as Python holds `ndarray.shape`: a tuple of ints. */
  function ShapeValue(shape: seq<nat>): Value
  {
    VTuple(seq(|shape|, i requires 0 <= i < |shape| => VInt(shape[i])))
  }

  /** The tagged dict an ndarray is encoded as. */
  function Envelope(a: Value): Value
    requires a.NdArray?
  {
    VDict(map[NDARRAY_KEY := a.data, DTYPE_KEY := VStr(a.dtype), SHAPE_KEY := ShapeValue(a.shape)])
  }

  /** `encode_numpy(obj, as_primitives)`; VNone means "not mine". */
  function EncodeNumpy(obj: Value, asPrimitives: bool, numpyAvailable: bool): Value
  {
    if !numpyAvailable then VNone
    else
      match obj
      case NdArray(data, _, _) => if asPrimitives then data else Envelope(obj)
      case NpBool(b) => VBool(b)
      case NpFloat(_, x) => VFloat(x)
      case NpInt(_, i) => VInt(i)
      case _ => VNone
  }

  /** Python's `"__ndarray__" in obj`: a key test on a dict, a substring
      test on a str, an element test on a list or tuple; an ndarray compares
      elementwise and finds no string among numbers; anything else raises. */
  function HasArrayKey(obj: Value): Result<bool>
  {
    match obj
    case VDict(m) => Ok(NDARRAY_KEY in m)
    case VStr(s) => Ok(Contains(s, NDARRAY_KEY))
    case VList(items) => Ok(VStr(NDARRAY_KEY) in items)
    case VTuple(items) => Ok(VStr(NDARRAY_KEY) in items)
    case NdArray(_, _, _) => Ok(false)
    case _ => Err(TypeError(NOT_ITERABLE_MSG))
  }

  /** The element type `np.dtype(...)` yields for a "dtype" entry: a name
      is taken as it is, None means float64, anything else raises. */
  function DtypeOf(d: Value): Result<string>
  {
    match d
    case VStr(name) => Ok(name)
    case VNone => Ok(DEFAULT_DTYPE)
    case _ => Err(TypeError(BAD_DTYPE_MSG))
  }

  /** `np.array(data, dtype=dtype)`. */
  function BuildArray(data: Value, dtype: string): Result<Value>
  {
    match ShapeOf(data)
    case Some(shape) => Ok(NdArray(data, dtype, shape))
    case None => Err(ValueError(RAGGED_MSG))
  }

  /** `decode_numpy(dct)`; Ok(VNone) means "not mine". The key test comes
      before the import of numpy, so values without the key decline even
      when numpy is missing; the "shape" entry is never read. */
  function DecodeNumpy(obj: Value, numpyAvailable: bool): Result<Value>
  {
    match HasArrayKey(obj)
    case Err(e) => Err(e)
    case Ok(found) =>
      if !found then Ok(VNone)
      else if !numpyAvailable then Err(ImportError(MISSING_NUMPY_MSG))
      else
        match obj
        case VDict(m) =>
          if DTYPE_KEY in m then
            match DtypeOf(m[DTYPE_KEY])
            case Ok(dtype) => BuildArray(m[NDARRAY_KEY], dtype)
            case Err(e) => Err(e)
          else BuildArray(m[NDARRAY_KEY], DEFAULT_DTYPE)
        case VStr(_) => Err(TypeError(STR_INDEX_MSG))
        case _ => Err(TypeError(SEQ_INDEX_MSG))
  }

  // ---------------------------------------------------------------------
  // Encoding

  /** Without numpy every value declines. */
  lemma EncodeWithoutNumpy(obj: Value, asPrimitives: bool)
    ensures EncodeNumpy(obj, asPrimitives, false) == VNone
  {
  }

  /** The envelope of an ndarray is a dict with exactly the three keys,
      holding its `tolist()` data, its dtype name and its shape. */
  lemma EncodeArrayAsEnvelope(a: Value)
    requires a.NdArray?
    ensures EncodeNumpy(a, false, true).VDict?
    ensures EncodeNumpy(a, false, true).entries.Keys == {NDARRAY_KEY, DTYPE_KEY, SHAPE_KEY}
    ensures EncodeNumpy(a, false, true).entries[NDARRAY_KEY] == a.data
    ensures EncodeNumpy(a, false, true).entries[DTYPE_KEY] == VStr(a.dtype)
    ensures EncodeNumpy(a, false, true).entries[SHAPE_KEY].VTuple?
    ensures |EncodeNumpy(a, false, true).entries[SHAPE_KEY].items| == |a.shape|
    ensures forall i | 0 <= i < |a.shape| :: EncodeNumpy(a, false, true).entries[SHAPE_KEY].items[i] == VInt(a.shape[i])
  {
  }

  /** With as_primitives, an ndarray becomes only its nested data; when that
      is a nesting of numbers, no dtype or shape is left anywhere in it. */
  lemma EncodeArrayAsPrimitives(a: Value)
    requires a.NdArray?
    ensures EncodeNumpy(a, true, true) == a.data
    ensures NestedNumbers(a.data) ==> NestedNumbers(EncodeNumpy(a, true, true)) && !EncodeNumpy(a, true, true).VDict?
  {
  }

  /** numpy scalars become the Python bool, float or int of the same value. */
  lemma EncodeScalar(v: Value)
    requires IsNumpyScalar(v)
    ensures v.NpBool? ==> EncodeNumpy(v, false, true) == VBool(v.b)
    ensures v.NpFloat? ==> EncodeNumpy(v, false, true) == VFloat(v.x)
    ensures v.NpInt? ==> EncodeNumpy(v, false, true) == VInt(v.i)
    ensures EncodeNumpy(v, true, true) == EncodeNumpy(v, false, true)
  {
  }

  /** With numpy present, `encode_numpy` accepts exactly the ndarrays and
      the numpy scalars; every other value gives None. */
  lemma EncodeAcceptsExactlyNumpy(obj: Value, asPrimitives: bool)
    requires obj.NdArray? ==> NestedNumbers(obj.data)
    ensures EncodeNumpy(obj, asPrimitives, true) != VNone <==> obj.NdArray? || IsNumpyScalar(obj)
  {
  }

  lemma {:induction false} NestedNumbersAreNative(v: Value)
    requires NestedNumbers(v)
    ensures NativeJson(v)
    decreases v
  {
    if v.VList? {
      forall i | 0 <= i < |v.items|
        ensures NativeJson(v.items[i])
      {
        NestedNumbersAreNative(v.items[i]);
      }
    }
  }

  /** Whatever `encode_numpy` returns for an array of numbers or a numpy
      scalar is something the JSON engine prints natively. */
  lemma {:induction false} EncodeOutputIsNative(obj: Value, asPrimitives: bool, numpyAvailable: bool)
    requires obj.NdArray? ==> NestedNumbers(obj.data)
    ensures NativeJson(EncodeNumpy(obj, asPrimitives, numpyAvailable))
  {
    if numpyAvailable && obj.NdArray? {
      NestedNumbersAreNative(obj.data);
      if !asPrimitives {
        var m := EncodeNumpy(obj, asPrimitives, numpyAvailable).entries;
        assert m.Keys == {NDARRAY_KEY, DTYPE_KEY, SHAPE_KEY};
        assert NativeJson(m[SHAPE_KEY]);
      }
    }
  }

  // ---------------------------------------------------------------------
  // Decoding

  /** A dict without "__ndarray__" declines, whether or not numpy is
      installed. */
  lemma DecodeWithoutKeyDeclines(m: map<string, Value>, numpyAvailable: bool)
    requires NDARRAY_KEY !in m
    ensures DecodeNumpy(VDict(m), numpyAvailable) == Ok(VNone)
  {
  }

  /** A dict with "__ndarray__" needs numpy: without it, ImportError. */
  lemma DecodeWithoutNumpyRaises(m: map<string, Value>)
    requires NDARRAY_KEY in m
    ensures DecodeNumpy(VDict(m), false) == Err(ImportError(MISSING_NUMPY_MSG))
  {
  }

  /** The element type is the "dtype" entry when it is a string, float64
      when it is None or missing; the data is the "__ndarray__" entry. */
  lemma DecodeDtype(m: map<string, Value>)
    requires NDARRAY_KEY in m
    requires ShapeOf(m[NDARRAY_KEY]).Some?
    requires DTYPE_KEY in m ==> m[DTYPE_KEY].VStr? || m[DTYPE_KEY].VNone?
    ensures DecodeNumpy(VDict(m), true).Ok?
    ensures DecodeNumpy(VDict(m), true).value.NdArray?
    ensures DecodeNumpy(VDict(m), true).value.data == m[NDARRAY_KEY]
    ensures DecodeNumpy(VDict(m), true).value.dtype
              == if DTYPE_KEY in m && m[DTYPE_KEY].VStr? then m[DTYPE_KEY].s else DEFAULT_DTYPE
  {
  }

  /** The "shape" entry plays no part in decoding. */
  lemma DecodeIgnoresShape(m: map<string, Value>, shape: Value, numpyAvailable: bool)
    ensures DecodeNumpy(VDict(m[SHAPE_KEY := shape]), numpyAvailable)
         == DecodeNumpy(VDict(m - {SHAPE_KEY}), numpyAvailable)
  {
    var m1, m2 := m[SHAPE_KEY := shape], m - {SHAPE_KEY};
    assert NDARRAY_KEY in m1 <==> NDARRAY_KEY in m2;
    assert DTYPE_KEY in m1 <==> DTYPE_KEY in m2;
  }

  /** Every array `decode_numpy` builds has the shape its data implies. */
  lemma DecodedArrayHasItsShape(obj: Value, numpyAvailable: bool)
    requires DecodeNumpy(obj, numpyAvailable).Ok?
    requires DecodeNumpy(obj, numpyAvailable).value != VNone
    ensures DecodeNumpy(obj, numpyAvailable).value.NdArray?
    ensures ShapeOf(DecodeNumpy(obj, numpyAvailable).value.data)
              == Some(DecodeNumpy(obj, numpyAvailable).value.shape)
  {
  }

  /** Round trip: decoding the envelope of a well-formed array gives back
      its data, dtype and shape. */
  lemma EnvelopeRoundTrip(a: Value)
    requires WellFormed(a)
    ensures DecodeNumpy(EncodeNumpy(a, false, true), true) == Ok(a)
  {
  }

  /** As written, the round trip loses a zero-length leading dimension:
      `np.zeros((0, 3))` is encoded with data `[]` and shape (0, 3), and
      since "shape" is never read it decodes to an array of shape (0,). */
  lemma EmptyLeadingDimensionLost()
    ensures !WellFormed(NdArray(VList([]), DEFAULT_DTYPE, [0, 3]))
    ensures DecodeNumpy(EncodeNumpy(NdArray(VList([]), DEFAULT_DTYPE, [0, 3]), false, true), true)
         == Ok(NdArray(VList([]), DEFAULT_DTYPE, [0]))
  {
  }

  /** The primitive encoding of an array is not decoded back into an array:
      a nested list of numbers holds no "__ndarray__" and declines. */
  lemma PrimitivesStayPlain(a: Value, numpyAvailable: bool)
    requires a.NdArray? && NestedNumbers(a.data)
    ensures DecodeNumpy(EncodeNumpy(a, true, true), numpyAvailable)
              == if a.data.VList? then Ok(VNone) else Err(TypeError(NOT_ITERABLE_MSG))
  {
  }
}
