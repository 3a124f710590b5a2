/** The value universe the codecs work on: the native JSON shapes, the
    numpy array and scalar values the numpy codec recognises, arbitrary
    other Python objects, and the exceptions the core raises. */
module Values {

  datatype Option<+T> = None | Some(value: T)

  /** A Python exception, by class; the message is kept as a string. */
  datatype Error =
    | ValueError(msg: string)
    | TypeError(msg: string)
    | ImportError(msg: string)
    | AttributeError(msg: string)

  /** Either a returned value or a raised exception. */
  datatype Result<+T> = Ok(value: T) | Err(error: Error)

  /** A Python value. `VNone` is Python's `None`, which the dispatch chain
      also reads as "this candidate declined". Floats are abstract reals;
      an ndarray is the triple of its `tolist()` nesting, its dtype name and
      its shape; numpy scalars carry the name of their numpy type. */
  datatype Value =
    | VNone
    | VBool(b: bool)
    | VInt(i: int)
    | VFloat(x: real)
    | VStr(s: string)
    | VList(items: seq<Value>)
    | VTuple(items: seq<Value>)
    | VDict(entries: map<string, Value>)
    | VObject(typeName: string)
    | NdArray(data: Value, dtype: string, shape: seq<nat>)
    | NpBool(b: bool)
    | NpInt(dtype: string, i: int)
    | NpFloat(dtype: string, x: real)

  /** The text Python prints for `type(v)`. */
  function TypeName(v: Value): string
  {
    match v
    case VNone => "<class 'NoneType'>"
    case VBool(_) => "<class 'bool'>"
    case VInt(_) => "<class 'int'>"
    case VFloat(_) => "<class 'float'>"
    case VStr(_) => "<class 'str'>"
    case VList(_) => "<class 'list'>"
    case VTuple(_) => "<class 'tuple'>"
    case VDict(_) => "<class 'dict'>"
    case VObject(t) => "<class '" + t + "'>"
    case NdArray(_, _, _) => "<class 'numpy.ndarray'>"
    case NpBool(_) => "<class 'numpy.bool_'>"
    case NpInt(d, _) => "<class 'numpy." + d + "'>"
    case NpFloat(d, _) => "<class 'numpy." + d + "'>"
  }

  /** A Python number: what numpy accepts as an array element. */
  predicate IsNumber(v: Value)
  {
    v.VBool? || v.VInt? || v.VFloat?
  }

  /** The values the JSON text engine can print without calling the
      `default` hook: None, bools, numbers, strings, lists, tuples and
      string-keyed dicts, all the way down. */
  predicate NativeJson(v: Value)
    decreases v
  {
    match v
    case VNone => true
    case VBool(_) => true
    case VInt(_) => true
    case VFloat(_) => true
    case VStr(_) => true
    case VList(items) => forall i | 0 <= i < |items| :: NativeJson(items[i])
    case VTuple(items) => forall i | 0 <= i < |items| :: NativeJson(items[i])
    case VDict(m) => forall k | k in m :: NativeJson(m[k])
    case _ => false
  }

  /** `t` occurs in `s` at position `i`. */
  predicate OccursAt(s: string, t: string, i: int)
  {
    0 <= i <= |s| - |t| && s[i..i + |t|] == t
  }

  /** `t in s` for two Python strings: `t` occurs in `s` as a substring. */
  function Contains(s: string, t: string): (r: bool)
    ensures r <==> exists i :: OccursAt(s, t, i)
    decreases |s|
  {
    if |s| < |t| then false
    else if s[..|t|] == t then
      assert OccursAt(s, t, 0);
      true
    else
      var r := Contains(s[1..], t);
      assert !OccursAt(s, t, 0);
      assert r ==> exists i :: OccursAt(s, t, i) by {
        if r {
          var j :| OccursAt(s[1..], t, j);
          assert s[1..][j..j + |t|] == s[j + 1..j + 1 + |t|];
          assert OccursAt(s, t, j + 1);
        }
      }
      assert (exists i :: OccursAt(s, t, i)) ==> r by {
        if exists i :: OccursAt(s, t, i) {
          var i :| OccursAt(s, t, i);
          assert s[1..][i - 1..i - 1 + |t|] == s[i..i + |t|];
          assert OccursAt(s[1..], t, i - 1);
        }
      }
      r
  }
}
