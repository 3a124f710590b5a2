/** The keyword-argument rewriting `dump`/`dumps` and `load`/`loads` do
    before handing over to the JSON text engine: a caller may pass a codec
    object as `encoder`/`decoder`, or have a fresh one built, but may not set
    the engine's raw hook (`default`/`object_hook`) directly. */
module JsonArgs {
  import opened Values
  import opened Coding

  /** A keyword argument: a plain value, or a codec object. */
  datatype Arg = Plain(v: Value) | Codec(caller: MethodListCaller)

  const DEFAULT_KEY := "default"
  const ENCODER_KEY := "encoder"
  const FLAG_KEY := "encode_as_primitives"
  const FOR_JSON_KEY := "for_json"
  const OBJECT_HOOK_KEY := "object_hook"
  const DECODER_KEY := "decoder"

  const DEFAULT_SET_MSG := "Instead of explicitly setting default, subclass missouri.coding.JSONEncoder and pass it as encoder"
  const OBJECT_HOOK_SET_MSG := "Instead of explicitly setting object_hook, subclass missouri.coding.JSONDecoder and pass it as decoder"

  /** A value of the encoder's `encode_as_primitives` parameter, declared
      `Optional[bool]`. */
  predicate IsFlag(a: Arg)
  {
    a.Plain? && (a.v.VNone? || a.v.VBool?)
  }

  /** `kwargs.get("encode_as_primitives", None)`, as an optional bool. */
  function FlagArg(kwargs: map<string, Arg>): Option<bool>
  {
    if FLAG_KEY in kwargs && kwargs[FLAG_KEY].Plain? && kwargs[FLAG_KEY].v.VBool?
    then Some(kwargs[FLAG_KEY].v.b)
    else None
  }

  /** `_dump_args(kwargs)`: refuses a raw `default`; moves `encoder` to
      `default`, or builds a fresh JSONEncoder from `encode_as_primitives`;
      drops `encode_as_primitives`; sets `for_json` to True. Every other
      argument is passed on as it was. */
  method DumpArgs(kwargs: map<string, Arg>) returns (r: Result<map<string, Arg>>)
    requires DEFAULT_KEY !in kwargs && ENCODER_KEY !in kwargs && FLAG_KEY in kwargs ==> IsFlag(kwargs[FLAG_KEY])
    ensures r.Err? <==> DEFAULT_KEY in kwargs
    ensures r.Err? ==> r.error == ValueError(DEFAULT_SET_MSG)
    ensures r.Ok? ==> r.value.Keys == kwargs.Keys - {ENCODER_KEY, FLAG_KEY} + {DEFAULT_KEY, FOR_JSON_KEY}
    ensures r.Ok? ==> r.value[FOR_JSON_KEY] == Plain(VBool(true))
    ensures r.Ok? && ENCODER_KEY in kwargs ==> r.value[DEFAULT_KEY] == kwargs[ENCODER_KEY]
    ensures r.Ok? && ENCODER_KEY !in kwargs ==>
              && r.value[DEFAULT_KEY].Codec?
              && fresh(r.value[DEFAULT_KEY].caller)
              && r.value[DEFAULT_KEY].caller.kind == Encoder
              && r.value[DEFAULT_KEY].caller.hasList
              && r.value[DEFAULT_KEY].caller.encodeAsPrimitives == (FlagArg(kwargs) == Some(true))
              && r.value[DEFAULT_KEY].caller.methodList
                   == [Encode, EncodeNumpy(r.value[DEFAULT_KEY].caller.encodeAsPrimitives)]
    ensures r.Ok? ==> forall k | k in kwargs && k !in {DEFAULT_KEY, ENCODER_KEY, FLAG_KEY, FOR_JSON_KEY} ::
                        k in r.value && r.value[k] == kwargs[k]
  {
    if DEFAULT_KEY in kwargs {
      return Err(ValueError(DEFAULT_SET_MSG));
    }
    var kw := kwargs;
    if ENCODER_KEY in kw {
      kw := kw[DEFAULT_KEY := kw[ENCODER_KEY]];
      kw := kw - {ENCODER_KEY};
    } else {
      var encoder := new MethodListCaller.JSONEncoder(FlagArg(kw));
      kw := kw[DEFAULT_KEY := Codec(encoder)];
    }
    if FLAG_KEY in kw {
      kw := kw - {FLAG_KEY};
    }
    kw := kw[FOR_JSON_KEY := Plain(VBool(true))];
    return Ok(kw);
  }

  /** `_load_args(kwargs)`: refuses a raw `object_hook`; moves `decoder` to
      `object_hook`, or builds a fresh JSONDecoder. Every other argument is
      passed on as it was. */
  method LoadArgs(kwargs: map<string, Arg>) returns (r: Result<map<string, Arg>>)
    ensures r.Err? <==> OBJECT_HOOK_KEY in kwargs
    ensures r.Err? ==> r.error == ValueError(OBJECT_HOOK_SET_MSG)
    ensures r.Ok? ==> r.value.Keys == kwargs.Keys - {DECODER_KEY} + {OBJECT_HOOK_KEY}
    ensures r.Ok? && DECODER_KEY in kwargs ==> r.value[OBJECT_HOOK_KEY] == kwargs[DECODER_KEY]
    ensures r.Ok? && DECODER_KEY !in kwargs ==>
              && r.value[OBJECT_HOOK_KEY].Codec?
              && fresh(r.value[OBJECT_HOOK_KEY].caller)
              && r.value[OBJECT_HOOK_KEY].caller.kind == Decoder
              && r.value[OBJECT_HOOK_KEY].caller.hasList
              && r.value[OBJECT_HOOK_KEY].caller.methodList == [Decode, DecodeNumpy]
    ensures r.Ok? ==> forall k | k in kwargs && k !in {DECODER_KEY, OBJECT_HOOK_KEY} ::
                        k in r.value && r.value[k] == kwargs[k]
  {
    if OBJECT_HOOK_KEY in kwargs {
      return Err(ValueError(OBJECT_HOOK_SET_MSG));
    }
    var kw := kwargs;
    if DECODER_KEY in kw {
      kw := kw[OBJECT_HOOK_KEY := kw[DECODER_KEY]];
      kw := kw - {DECODER_KEY};
    } else {
      var decoder := new MethodListCaller.JSONDecoder();
      kw := kw[OBJECT_HOOK_KEY := Codec(decoder)];
    }
    return Ok(kw);
  }
}
