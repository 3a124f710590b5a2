/** The dispatch chain: a `MethodListCaller` holds an ordered list of coder
    methods; calling it returns the first result that is not None, and falls
    back to `default` when every method declines. The JSON encoder and
    decoder are callers pre-registered with the numpy codec. */
module Coding {
  import opened Values
  import NumpyLib

  /** A bound coder method: the encoder's and decoder's own hooks, which
      match nothing, the numpy codec (the encoder's bound to its
      `encode_as_primitives` flag), or any method a user registers. A method
      may also raise. */
  datatype CoderMethod =
    | Encode
    | EncodeNumpy(asPrimitives: bool)
    | Decode
    | DecodeNumpy
    | User(f: Value -> Result<Value>)

  /** Calling one method on `obj`. */
  function Apply(m: CoderMethod, obj: Value, numpyAvailable: bool): Result<Value>
  {
    match m
    case Encode => Ok(VNone)
    case EncodeNumpy(asPrimitives) => Ok(NumpyLib.EncodeNumpy(obj, asPrimitives, numpyAvailable))
    case Decode => Ok(VNone)
    case DecodeNumpy => NumpyLib.DecodeNumpy(obj, numpyAvailable)
    case User(f) => f(obj)
  }

  /** A method declines by returning None; no other result is a decline. */
  predicate Declines(m: CoderMethod, obj: Value, numpyAvailable: bool)
  {
    Apply(m, obj, numpyAvailable) == Ok(VNone)
  }

  /** The outcome of the first method in `ms` that does not decline (its
      value or its exception), or None when all of them decline. */
  function FirstResult(ms: seq<CoderMethod>, obj: Value, numpyAvailable: bool): Option<Result<Value>>
    decreases |ms|
  {
    if |ms| == 0 then None
    else if Declines(ms[0], obj, numpyAvailable) then FirstResult(ms[1..], obj, numpyAvailable)
    else Some(Apply(ms[0], obj, numpyAvailable))
  }

  /** Which `default` a caller has. */
  datatype Kind = Base | Encoder | Decoder

  const NO_LIST_MSG := "'MethodListCaller' object has no attribute 'method_list'"

  /** The message of the encoder's ValueError; it names the value's type. */
  function UnencodableMessage(obj: Value): string
  {
    "Object of type " + TypeName(obj) + " is not JSON-serializable"
  }

  /** `default(obj)`: the identity, except on the encoder, which raises. */
  function Default(kind: Kind, obj: Value): Result<Value>
  {
    if kind == Encoder then Err(ValueError(UnencodableMessage(obj))) else Ok(obj)
  }

  /** What calling a caller of this kind and list on `obj` gives. A caller
      that never had a list raises AttributeError. */
  function CallResult(kind: Kind, hasList: bool, ms: seq<CoderMethod>, obj: Value, numpyAvailable: bool): Result<Value>
  {
    if !hasList then Err(AttributeError(NO_LIST_MSG))
    else
      match FirstResult(ms, obj, numpyAvailable)
      case None => Default(kind, obj)
      case Some(r) => r
  }

  /** Python's `list.insert(index, m)`: a negative index counts from the
      end, and an index out of range is clamped to the nearer end. */
  function ListInsert(s: seq<CoderMethod>, index: int, m: CoderMethod): (r: seq<CoderMethod>)
    ensures |r| == |s| + 1
  {
    var n := |s|;
    var i := if index < 0 then (if index + n < 0 then 0 else index + n)
             else if index > n then n else index;
    s[..i] + [m] + s[i..]
  }

  /** The index `register` hands to `list.insert`: -1 stands for the end. */
  function RegisterIndex(index: int, n: nat): int
  {
    if index == -1 then n else index
  }

  class MethodListCaller {
    const kind: Kind
    /** Whether the instance has a `method_list` attribute at all. */
    var hasList: bool
    var methodList: seq<CoderMethod>
    /** The encoder's `encode_as_primitives`; false on other callers. */
    var encodeAsPrimitives: bool

    /** The list as `register` sees it: no list is an empty one. */
    ghost function Methods(): seq<CoderMethod>
      reads this
    {
      if hasList then methodList else []
    }

    /** `MethodListCaller()`: the base class has no `__init__`, so a new
        instance has no list. */
    constructor ()
      ensures kind == Base && !hasList && |methodList| == 0 && !encodeAsPrimitives
    {
      kind := Base;
      hasList := false;
      methodList := [];
      encodeAsPrimitives := false;
    }

    /** `JSONEncoder(encode_as_primitives)`: None means False; registers
        `encode`, then `encode_numpy` bound to the flag. */
    constructor JSONEncoder(encodeAsPrimitives: Option<bool> := None)
      ensures kind == Encoder && hasList
      ensures this.encodeAsPrimitives == (encodeAsPrimitives == Some(true))
      ensures methodList == [Encode, EncodeNumpy(this.encodeAsPrimitives)]
    {
      kind := Encoder;
      hasList := false;
      methodList := [];
      this.encodeAsPrimitives := if encodeAsPrimitives.None? then false else encodeAsPrimitives.value;
      new;
      Register(Encode);
      Register(EncodeNumpy(this.encodeAsPrimitives));
    }

    /** `JSONDecoder()`: registers `decode`, then `decode_numpy`. */
    constructor JSONDecoder()
      ensures kind == Decoder && hasList && !encodeAsPrimitives
      ensures methodList == [Decode, DecodeNumpy]
    {
      kind := Decoder;
      hasList := false;
      methodList := [];
      encodeAsPrimitives := false;
      new;
      Register(Decode);
      Register(DecodeNumpy);
    }

    /** `register(method, index=-1)`: creates the list if there is none,
        then inserts `m` at `index`, -1 meaning the end. */
    method Register(m: CoderMethod, index: int := -1)
      modifies this
      ensures hasList && encodeAsPrimitives == old(encodeAsPrimitives)
      ensures methodList == ListInsert(old(Methods()), RegisterIndex(index, |old(Methods())|), m)
    {
      if !hasList {
        Clear();
      }
      var i := RegisterIndex(index, |methodList|);
      methodList := ListInsert(methodList, i, m);
    }

    /** `clear()`: the list becomes empty. */
    method Clear()
      modifies this
      ensures hasList && |methodList| == 0
      ensures encodeAsPrimitives == old(encodeAsPrimitives)
    {
      hasList := true;
      methodList := [];
    }

    /** `__call__(obj)`: tries the methods in order and returns the first
        result that is not None, or `default(obj)` when all decline. An
        exception from a method propagates. `invoked` counts the methods
        that were called: none after the one that answered. */
    method Call(obj: Value, numpyAvailable: bool) returns (r: Result<Value>, invoked: nat)
      ensures r == CallResult(kind, hasList, methodList, obj, numpyAvailable)
      ensures !hasList ==> invoked == 0
      ensures hasList ==> invoked <= |methodList|
      ensures hasList ==> forall j | 0 <= j < invoked - 1 :: Declines(methodList[j], obj, numpyAvailable)
      ensures (hasList && 0 < invoked && !Declines(methodList[invoked - 1], obj, numpyAvailable)) ==>
                r == Apply(methodList[invoked - 1], obj, numpyAvailable)
      ensures (hasList && (invoked == 0 || Declines(methodList[invoked - 1], obj, numpyAvailable))) ==>
                invoked == |methodList| && r == Default(kind, obj)
    {
      if !hasList {
        return Err(AttributeError(NO_LIST_MSG)), 0;
      }
      var i := 0;
      while i < |methodList|
        invariant i <= |methodList|
        invariant forall j | 0 <= j < i :: Declines(methodList[j], obj, numpyAvailable)
        invariant FirstResult(methodList[i..], obj, numpyAvailable) == FirstResult(methodList, obj, numpyAvailable)
      {
        var x := Apply(methodList[i], obj, numpyAvailable);
        if x != Ok(VNone) {
          return x, i + 1;
        }
        assert methodList[i..][1..] == methodList[i + 1..];
        i := i + 1;
      }
      return Default(kind, obj), i;
    }
  }

  // ---------------------------------------------------------------------
  // register

  /** Registering with the default index -1 appends. */
  lemma RegisterAppends(s: seq<CoderMethod>, m: CoderMethod)
    ensures ListInsert(s, RegisterIndex(-1, |s|), m) == s + [m]
  {
  }

  /** Registering at 0 <= i <= len puts `m` at position i; earlier entries
      stay, later ones move one place right. */
  lemma RegisterAt(s: seq<CoderMethod>, i: int, m: CoderMethod)
    requires 0 <= i <= |s|
    ensures ListInsert(s, RegisterIndex(i, |s|), m)[i] == m
    ensures forall j | 0 <= j < i :: ListInsert(s, RegisterIndex(i, |s|), m)[j] == s[j]
    ensures forall j | i < j <= |s| :: ListInsert(s, RegisterIndex(i, |s|), m)[j] == s[j - 1]
  {
  }

  /** Registering on a caller without a list gives the one-element list. */
  lemma RegisterOnEmpty(m: CoderMethod, index: int)
    ensures ListInsert([], RegisterIndex(index, 0), m) == [m]
  {
  }

  // ---------------------------------------------------------------------
  // The first answer wins

  /** If the methods before k decline and method k does not, the chain
      answers with method k's outcome. */
  lemma {:induction false} FirstMatchWins(ms: seq<CoderMethod>, k: nat, obj: Value, numpyAvailable: bool)
    requires k < |ms|
    requires forall j | 0 <= j < k :: Declines(ms[j], obj, numpyAvailable)
    requires !Declines(ms[k], obj, numpyAvailable)
    ensures FirstResult(ms, obj, numpyAvailable) == Some(Apply(ms[k], obj, numpyAvailable))
    decreases k
  {
    if k > 0 {
      FirstMatchWins(ms[1..], k - 1, obj, numpyAvailable);
    }
  }

  /** Conversely, every answer comes from a method that did not decline,
      with all methods before it declining. */
  lemma {:induction false} AnswerComesFromFirstMatch(ms: seq<CoderMethod>, obj: Value, numpyAvailable: bool)
    requires FirstResult(ms, obj, numpyAvailable).Some?
    ensures exists k :: (0 <= k < |ms|
      && Apply(ms[k], obj, numpyAvailable) == FirstResult(ms, obj, numpyAvailable).value
      && !Declines(ms[k], obj, numpyAvailable)
      && forall j | 0 <= j < k :: Declines(ms[j], obj, numpyAvailable))
    decreases |ms|
  {
    if Declines(ms[0], obj, numpyAvailable) {
      AnswerComesFromFirstMatch(ms[1..], obj, numpyAvailable);
      var k :| 0 <= k < |ms[1..]|
        && Apply(ms[1..][k], obj, numpyAvailable) == FirstResult(ms[1..], obj, numpyAvailable).value
        && !Declines(ms[1..][k], obj, numpyAvailable)
        && forall j | 0 <= j < k :: Declines(ms[1..][j], obj, numpyAvailable);
      assert forall j | 0 <= j < k + 1 :: Declines(ms[j], obj, numpyAvailable) by {
        forall j | 0 <= j < k + 1
          ensures Declines(ms[j], obj, numpyAvailable)
        {
          if j > 0 {
            assert ms[j] == ms[1..][j - 1];
          }
        }
      }
      assert ms[k + 1] == ms[1..][k];
    } else {
      assert !Declines(ms[0], obj, numpyAvailable);
    }
  }

  /** The chain falls back exactly when every method declines (an empty
      list included). */
  lemma {:induction false} NoAnswerIffAllDecline(ms: seq<CoderMethod>, obj: Value, numpyAvailable: bool)
    ensures FirstResult(ms, obj, numpyAvailable).None?
        <==> forall j | 0 <= j < |ms| :: Declines(ms[j], obj, numpyAvailable)
    decreases |ms|
  {
    if |ms| > 0 {
      NoAnswerIffAllDecline(ms[1..], obj, numpyAvailable);
      assert forall j | 1 <= j < |ms| :: ms[j] == ms[1..][j - 1];
    }
  }

  /** Methods after the first one that answers are never consulted: any
      suffix may follow it. */
  lemma LaterMethodsIgnored(ms: seq<CoderMethod>, k: nat, tail: seq<CoderMethod>, obj: Value, numpyAvailable: bool)
    requires k < |ms|
    requires forall j | 0 <= j < k :: Declines(ms[j], obj, numpyAvailable)
    requires !Declines(ms[k], obj, numpyAvailable)
    ensures FirstResult(ms[..k + 1] + tail, obj, numpyAvailable) == FirstResult(ms, obj, numpyAvailable)
  {
    var ms' := ms[..k + 1] + tail;
    assert forall j | 0 <= j <= k :: ms'[j] == ms[j];
    FirstMatchWins(ms, k, obj, numpyAvailable);
    FirstMatchWins(ms', k, obj, numpyAvailable);
  }

  // ---------------------------------------------------------------------
  // default

  /** A base caller or a decoder whose methods all decline returns the
      value itself. */
  lemma FallbackIsIdentity(kind: Kind, ms: seq<CoderMethod>, obj: Value, numpyAvailable: bool)
    requires kind != Encoder
    requires forall j | 0 <= j < |ms| :: Declines(ms[j], obj, numpyAvailable)
    ensures CallResult(kind, true, ms, obj, numpyAvailable) == Ok(obj)
  {
    NoAnswerIffAllDecline(ms, obj, numpyAvailable);
  }

  /** An encoder never hands back an unmatched value: it returns only what
      some method produced, never None, and raises ValueError naming the
      type when all methods decline. */
  lemma EncoderNeverPassesThrough(ms: seq<CoderMethod>, obj: Value, numpyAvailable: bool)
    ensures CallResult(Encoder, true, ms, obj, numpyAvailable).Ok? ==>
              (CallResult(Encoder, true, ms, obj, numpyAvailable).value != VNone &&
               exists k :: 0 <= k < |ms| && Apply(ms[k], obj, numpyAvailable) == CallResult(Encoder, true, ms, obj, numpyAvailable))
    ensures (forall j | 0 <= j < |ms| :: Declines(ms[j], obj, numpyAvailable))
        ==> CallResult(Encoder, true, ms, obj, numpyAvailable) == Err(ValueError(UnencodableMessage(obj)))
  {
    NoAnswerIffAllDecline(ms, obj, numpyAvailable);
    if FirstResult(ms, obj, numpyAvailable).Some? {
      AnswerComesFromFirstMatch(ms, obj, numpyAvailable);
    }
  }

  // ---------------------------------------------------------------------
  // The fresh encoder and decoder

  /** A fresh encoder answers with `encode_numpy`'s result when that is not
      None, and raises ValueError naming the type otherwise. */
  lemma FreshEncoderCall(asPrimitives: bool, obj: Value, numpyAvailable: bool)
    ensures CallResult(Encoder, true, [Encode, EncodeNumpy(asPrimitives)], obj, numpyAvailable)
         == if NumpyLib.EncodeNumpy(obj, asPrimitives, numpyAvailable) != VNone
            then Ok(NumpyLib.EncodeNumpy(obj, asPrimitives, numpyAvailable))
            else Err(ValueError(UnencodableMessage(obj)))
  {
    var ms := [Encode, EncodeNumpy(asPrimitives)];
    var e := NumpyLib.EncodeNumpy(obj, asPrimitives, numpyAvailable);
    assert Declines(ms[0], obj, numpyAvailable);
    assert ms[1..][0] == EncodeNumpy(asPrimitives) && ms[1..][1..] == [];
    assert FirstResult(ms[1..][1..], obj, numpyAvailable) == None;
    assert FirstResult(ms[1..], obj, numpyAvailable) == if e == VNone then None else Some(Ok(e));
  }

  /** Without numpy, a fresh encoder raises on every value. */
  lemma FreshEncoderWithoutNumpy(asPrimitives: bool, obj: Value)
    ensures CallResult(Encoder, true, [Encode, EncodeNumpy(asPrimitives)], obj, false)
         == Err(ValueError(UnencodableMessage(obj)))
  {
    FreshEncoderCall(asPrimitives, obj, false);
  }

  /** A fresh decoder returns a dict without "__ndarray__" unchanged,
      whether or not numpy is installed. */
  lemma FreshDecoderPassesPlainDicts(m: map<string, Value>, numpyAvailable: bool)
    requires NumpyLib.NDARRAY_KEY !in m
    ensures CallResult(Decoder, true, [Decode, DecodeNumpy], VDict(m), numpyAvailable) == Ok(VDict(m))
  {
    var ms := [Decode, DecodeNumpy];
    assert ms[1..][1..] == [];
  }

  /** A fresh decoder meeting "__ndarray__" without numpy raises
      ImportError. */
  lemma FreshDecoderNeedsNumpy(m: map<string, Value>)
    requires NumpyLib.NDARRAY_KEY in m
    ensures CallResult(Decoder, true, [Decode, DecodeNumpy], VDict(m), false)
         == Err(ImportError(NumpyLib.MISSING_NUMPY_MSG))
  {
  }

  /** "Declined" and "answered None" are the same thing: a user encoder
      whose legitimate answer is None is skipped, and the encoder ends in
      ValueError. */
  lemma NoneAnswerIsSkipped(f: Value -> Result<Value>, obj: Value, numpyAvailable: bool)
    requires f(obj) == Ok(VNone)
    ensures CallResult(Encoder, true, [User(f)], obj, numpyAvailable) == Err(ValueError(UnencodableMessage(obj)))
  {
    var ms := [User(f)];
    assert Declines(ms[0], obj, numpyAvailable);
    assert FirstResult(ms[1..], obj, numpyAvailable) == None;
    assert FirstResult(ms, obj, numpyAvailable) == None;
  }

  /** A method registered at the front takes precedence over the built-in
      ones whenever it answers. */
  lemma FrontMethodTakesPrecedence(kind: Kind, f: Value -> Result<Value>, ms: seq<CoderMethod>, obj: Value, numpyAvailable: bool)
    requires f(obj) != Ok(VNone)
    ensures CallResult(kind, true, ListInsert(ms, RegisterIndex(0, |ms|), User(f)), obj, numpyAvailable) == f(obj)
  {
    var ms' := ListInsert(ms, RegisterIndex(0, |ms|), User(f));
    assert ms'[0] == User(f);
  }

  /** Round trip through the fresh encoder and decoder: a well-formed array
      encodes to its envelope, which decodes back to the same data, dtype
      and shape. */
  lemma ChainRoundTrip(a: Value)
    requires NumpyLib.WellFormed(a)
    ensures CallResult(Encoder, true, [Encode, EncodeNumpy(false)], a, true) == Ok(NumpyLib.Envelope(a))
    ensures CallResult(Decoder, true, [Decode, DecodeNumpy], NumpyLib.Envelope(a), true) == Ok(a)
  {
    FreshEncoderCall(false, a, true);
    NumpyLib.EnvelopeRoundTrip(a);
    var ms := [Decode, DecodeNumpy];
    assert ms[1..][1..] == [];
  }
}
