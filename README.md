# missouri codec dispatch, modelled in Dafny

missouri is a JSON layer over simplejson. It adds an ordered, pluggable
chain of encoders and decoders and a codec for numpy arrays. This project
models three parts of it.

- **The dispatch chain** (`MethodListCaller` in `missouri/coding.py`). It
  holds an ordered list of coder methods. `register` inserts into the list
  and `clear` empties it. Calling the chain returns the first result that is
  not `None` and calls no method after that one. If every method declines,
  it returns `default(obj)`. `JSONEncoder` pre-registers `encode` and
  `encode_numpy`, and its `default` raises `ValueError`. `JSONDecoder`
  pre-registers `decode` and `decode_numpy`, and keeps the identity
  `default`.
- **The numpy codec** (`missouri/numpylib.py`). `encode_numpy` turns an
  ndarray into the tagged dict `{"__ndarray__", "dtype", "shape"}`, or into
  its plain nested list when `as_primitives` is set. It turns numpy scalars
  into Python bools, floats and ints. `decode_numpy` rebuilds an array from
  a dict that has the `"__ndarray__"` key.
- **The argument rewriting of the facade** (`_dump_args` and `_load_args`
  in `missouri/json.py`).

Modules:

- `Values` (values.dfy) holds the value universe. It has the native JSON
  shapes of `missouri/common_types.py`, tuples, arbitrary objects, ndarrays
  and numpy scalars. `VNone` is Python's `None`. The chain also reads it as
  "declined", just as the source does. `Values` also holds the exceptions,
  modelled as a `Result`.
- `NumpyLib` (numpylib.dfy) holds `EncodeNumpy`, `DecodeNumpy` and their
  round trip. Whether numpy can be imported is the parameter
  `numpyAvailable`.
- `Coding` (coding.dfy) holds the class `MethodListCaller`. Its `Register`,
  `Clear` and `Call` work on a `seq` field. Its constructors model the base
  class, `JSONEncoder` and `JSONDecoder`. The module also holds the
  specification function `CallResult` and the lemmas about first-match
  dispatch.
- `JsonArgs` (json_args.dfy) holds `DumpArgs` and `LoadArgs`. Both work on
  a `map<string, Arg>` of keyword arguments.

Choices worth knowing:

- Bound methods are tags. `Encode` and `Decode` always return `None`.
  `EncodeNumpy(asPrimitives)` and `DecodeNumpy` call the numpy codec.
  `User(f)` stands for any registered function, and may raise.
- The three Python classes are one Dafny class with a `const kind`. The kind
  selects `default`: identity for the base class and `JSONDecoder`,
  `ValueError` for `JSONEncoder`.
- `hasattr(self, "method_list")` is the field `hasList`. A base instance
  that nothing has registered into has no list. Calling it raises
  `AttributeError`.
- `register` keeps Python's `list.insert` semantics for every index. A
  negative index counts from the end, and an index out of range is clamped.
  The special value -1 appends.
- Where the documented design and the code disagree, the model follows the
  code. The encoder's fallback raises `ValueError`, but the `JSONEncoder`
  docstring (missouri/coding.py:73-75) speaks of handing the object on to
  simplejson, which would raise a TypeError.
- Behaviour worth knowing:
  - "Declined" and "returned `None`" are one and the same
    (missouri/coding.py:42). A method whose real answer is None is skipped.
  - `decode_numpy` never reads the `"shape"` entry
    (missouri/numpylib.py:82-85). It does not validate or reshape by it.
  - A `"dtype"` entry of `None` falls back to float64, as `np.dtype(None)`
    does.

## Model

| member | source | states |
|---|---|---|
| `Values.Contains` | missouri/numpylib.py:74 | `"__ndarray__" in s` on a string holds exactly when the key occurs in `s` at some position |
| `NumpyLib.EncodeWithoutNumpy` | missouri/numpylib.py:12-16 | without numpy, `encode_numpy` returns None for every input |
| `NumpyLib.EncodeArrayAsEnvelope` | missouri/numpylib.py:21-26 | without `as_primitives`, the result is a dict with exactly the keys `__ndarray__`, `dtype` and `shape`, holding the array's data, its dtype name, and its shape as a tuple with one int per dimension |
| `NumpyLib.EncodeArrayAsPrimitives` | missouri/numpylib.py:19-20 | with `as_primitives`, the result for every array is just its nested data; when the data is a nesting of numbers, so is the result, with no dtype or shape metadata |
| `NumpyLib.EncodeScalar` | missouri/numpylib.py:27-68 | numpy bool, float and int scalars become a Python bool, float and int of the same value, whatever `as_primitives` is |
| `NumpyLib.EncodeAcceptsExactlyNumpy` | missouri/numpylib.py:18-70 | with numpy present and array data a nesting of numbers, the result is not None exactly for ndarrays and numpy scalars |
| `NumpyLib.NestedNumbersAreNative` | missouri/common_types.py:4 | a `tolist()` nesting of numbers is a native JSON value |
| `NumpyLib.EncodeOutputIsNative` | missouri/numpylib.py:11-70 | everything `encode_numpy` returns, for an array of numbers or any other input, is printable by the JSON engine without further hooks |
| `NumpyLib.DecodeWithoutKeyDeclines` | missouri/numpylib.py:74-87 | a dict without `"__ndarray__"` gives None, even when numpy is missing, because the key test comes before the import |
| `NumpyLib.DecodeWithoutNumpyRaises` | missouri/numpylib.py:74-80 | a dict with `"__ndarray__"` raises ImportError with the "install numpy" message when numpy is missing |
| `NumpyLib.DecodeDtype` | missouri/numpylib.py:82-85 | the decoded array holds the `"__ndarray__"` data, with dtype taken from a string `"dtype"`, and float64 when `"dtype"` is None or missing |
| `NumpyLib.DecodeIgnoresShape` | missouri/numpylib.py:82-85 | the `"shape"` entry has no effect on decoding |
| `NumpyLib.DecodedArrayHasItsShape` | missouri/numpylib.py:82-85 | every decoded array's shape is the one its nested data implies |
| `NumpyLib.EnvelopeRoundTrip` | missouri/numpylib.py:21-85 | decoding the tagged encoding of a well-formed array gives back the same data, dtype and shape |
| `NumpyLib.EmptyLeadingDimensionLost` | missouri/numpylib.py:21-85 | as written, an array of shape (0, 3) is encoded with data `[]` and decodes to shape (0,), because `"shape"` is never read |
| `NumpyLib.PrimitivesStayPlain` | missouri/numpylib.py:19-20 | `decode_numpy` does not rebuild the primitive encoding of an array: a nested list declines (a 0-d scalar raises TypeError) |
| `Coding.ListInsert` | missouri/coding.py:29 | `list.insert` makes the list exactly one longer |
| `Coding.RegisterAppends` | missouri/coding.py:27-29 | registering at the default index -1 appends: the new list is the old one plus `m` |
| `Coding.RegisterAt` | missouri/coding.py:29 | registering at `0 <= i <= len` puts `m` at position `i`; earlier entries keep their positions and later ones shift right by one |
| `Coding.RegisterOnEmpty` | missouri/coding.py:25-29 | registering on a caller with no list, at any index, gives the list `[m]` |
| `Coding.MethodListCaller.constructor` | missouri/coding.py:15-22 | a bare `MethodListCaller` has no method list |
| `Coding.MethodListCaller.JSONEncoder` | missouri/coding.py:78-83 | a fresh encoder has `encode_as_primitives` False unless True was passed, and list `[encode, encode_numpy]` |
| `Coding.MethodListCaller.JSONDecoder` | missouri/coding.py:122-124 | a fresh decoder has list `[decode, decode_numpy]` |
| `Coding.MethodListCaller.Register` | missouri/coding.py:24-29 | the list is created if absent, then `m` is inserted as `list.insert` does at `index`, with -1 meaning the end |
| `Coding.MethodListCaller.Clear` | missouri/coding.py:31-33 | afterwards the list exists and is empty |
| `Coding.MethodListCaller.Call` | missouri/coding.py:35-45 | the result is the chain's specified outcome; the methods invoked are a prefix ending at the first one that does not decline; with no answer, every method was tried and `default(obj)` is returned |
| `Coding.FirstMatchWins` | missouri/coding.py:40-43 | if the methods before `k` decline and method `k` does not, its outcome (value or exception) is the chain's |
| `Coding.AnswerComesFromFirstMatch` | missouri/coding.py:40-43 | every answer is the outcome of a method that did not decline, with all earlier methods declining |
| `Coding.NoAnswerIffAllDecline` | missouri/coding.py:40-45 | the chain falls back to `default` exactly when every method declines, the empty list included |
| `Coding.LaterMethodsIgnored` | missouri/coding.py:41-43 | methods after the first answering one never affect the outcome |
| `Coding.FallbackIsIdentity` | missouri/coding.py:44-51 | for the base class and the decoder, when all methods decline the call returns `obj` unchanged |
| `Coding.EncoderNeverPassesThrough` | missouri/coding.py:85-86 | an encoder returns only a non-None value some method produced; when all decline it raises ValueError naming the value's type |
| `Coding.FreshEncoderCall` | missouri/coding.py:78-96 | a fresh encoder returns `encode_numpy`'s result when that is not None, and otherwise raises ValueError with the type in the message |
| `Coding.FreshEncoderWithoutNumpy` | missouri/coding.py:95-96 | without numpy, a fresh encoder raises ValueError for every value |
| `Coding.FreshDecoderPassesPlainDicts` | missouri/coding.py:117-134 | a fresh decoder returns a dict without `"__ndarray__"` unchanged, with or without numpy |
| `Coding.FreshDecoderNeedsNumpy` | missouri/coding.py:133-134 | a fresh decoder raises ImportError on a tagged dict when numpy is missing |
| `Coding.NoneAnswerIsSkipped` | missouri/coding.py:40-45 | a registered encoder whose answer is None counts as declining, so the encoder raises ValueError instead of returning None |
| `Coding.FrontMethodTakesPrecedence` | missouri/coding.py:24-43 | a method registered at index 0 decides the outcome whenever it answers, ahead of the built-in methods |
| `Coding.ChainRoundTrip` | missouri/coding.py:78-134 | a fresh encoder turns a well-formed array into its tagged dict, and a fresh decoder turns that back into the same array |
| `JsonArgs.DumpArgs` | missouri/json.py:11-26 | raises ValueError exactly when `default` is given. Otherwise: `default` is the given `encoder`, or a fresh JSONEncoder with the given flag (False when absent). `encoder` and `encode_as_primitives` are removed and `for_json` is True. Every other argument is unchanged |
| `JsonArgs.LoadArgs` | missouri/json.py:38-48 | raises ValueError exactly when `object_hook` is given. Otherwise: `object_hook` is the given `decoder` (now removed) or a fresh JSONDecoder. Every other argument is unchanged |

## Left out

- `missouri/openlib.py` is not part of this model. It only opens files and
  streams.
- `dev.py` is not part of this model. It is a command-line task runner.
- `dump`, `dumps`, `load` and `loads` (missouri/json.py:29-35, 51-57) are
  not modelled. Each calls `DumpArgs` or `LoadArgs`, then simplejson, and
  the file variants also open the file. The JSON grammar, escaping, number
  formatting, `sort_keys`, `indent`, `separators` and `for_json` belong to
  simplejson. `dumps` and `loads` raise the ValueError for a given
  `default`/`object_hook` before simplejson is called. `dump` and `load`
  open the file first (missouri/json.py:30, 52), so a path given to `dump`
  is created or truncated before that ValueError is raised.
- Real numpy semantics are not modelled: `tolist()`, converting elements to
  the dtype, and validating or aliasing dtype names in `np.dtype(...)`. An
  array is the abstract triple of data, dtype name and shape. The model
  accepts any string as a dtype name.
- `NumpyLib.BuildArray` treats every payload that is not a rectangular
  nesting of numbers as ragged and raises ValueError. Real numpy differs at
  the edges: `np.array(None, dtype=float64)` gives `array(nan)`, numeric
  strings are converted, and a dict payload raises TypeError.
- Dicts are modelled as unordered maps. The insertion order of Python dicts
  is not captured, including the envelope's key order `__ndarray__`,
  `dtype`, `shape`, which shows in the printed text.
- Floats are abstract reals. There is no IEEE precision, rounding, NaN or
  infinity.
- The numpy scalar type names follow numpy 1.x, as the source does. The
  source uses `np.bool8`, `np.float_` and `np.longfloat`, which numpy 2
  removes. `float128` being present or absent makes no difference to the
  abstract float scalar.
- Exception messages that come from Python or numpy (TypeError for a
  non-container or a bad dtype, ValueError for ragged data) are fixed
  placeholder strings. The messages the source writes itself are kept
  word for word.
- `DecodeNumpy` on an arbitrary object treats `in` as raising TypeError. A
  user class with its own `__contains__` is not modelled. On an ndarray,
  `in` is modelled as finding no string among numbers.
- Python subclassing is not modelled. Overriding `encode` or `decode` is
  modelled by registering a `User` method. Overriding `default` is limited
  to the three kinds in the source.
- `Coding.CoderMethod`: `EncodeNumpy` takes `encode_as_primitives` when the
  method is registered. The source reads the attribute when the method is
  called. Nothing in the core changes the attribute after construction.
- `JsonArgs.DumpArgs`: requires the `encode_as_primitives` argument to be
  `None` or a bool, the parameter's declared type (`Optional[bool]`). The
  source would store any other object as the flag and test its truthiness.
  The requirement only applies when neither `default` nor `encoder` is
  given, because otherwise the argument is never read: `default` raises
  first, and with `encoder` the argument is dropped unread.
- `NumpyLib.EnvelopeRoundTrip`: the round trip is stated only for arrays
  whose shape their data determines (`WellFormed`). An array with a
  zero-length dimension followed by further dimensions comes back with a
  different shape, as `NumpyLib.EmptyLeadingDimensionLost` shows.
- `Coding.ChainRoundTrip`: stated only for `WellFormed` arrays, for the
  same reason as `NumpyLib.EnvelopeRoundTrip`.
- Concurrency: the source is single-threaded, so there is nothing to model.
