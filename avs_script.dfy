/** The write side of `AVS_Value` and the `AVS_ScriptEnvironment` calls of
    avisynth.py that translate between Python objects and engine values:
    the setters and `set_value`, the strings an environment keeps alive for
    the engine (`weak_dict[env]`), `invoke`, `get_var` and `check_version`. */
module AvsScript {

  import opened Wrappers
  import opened AvsValue

  // ---------------------------------------------------------------------
  // Python objects handed to set_value, and what set_value stores
  // ---------------------------------------------------------------------

  /** The Python objects `set_value` tells apart, in the order it tests them. */
  datatype PyObject =
    | PyNone
    | PyBool(b: bool)
    | PyInt(i: int)                     // a Python 2 `int` (a `long` is a PyOther)
    | PyFloat(bits: bv32)               // already converted to a c_float
    | PyStr(s: string)                  // a byte string
    | PyClip(clip: int)                 // an AVS_Clip handle
    | PyValue(src: ValueC, srcEnv: ScriptEnvironment?, srcReleaseOnDel: bool) // another AVS_Value
    | PyCData(c: ValueC)                // a bare AVS_Value_C struct
    | PyList(items: seq<PyObject>)      // any other sized iterable
    | PyOther(typeName: string)         // `str(type(value))`, e.g. "<type 'long'>"

  const NONE_TYPE: string := "<type 'NoneType'>"

  /** The struct `set_value(o)` leaves in a struct that held `c`, or the error
      it raises. Setters release first; `set_clip` and `copy_from` overwrite
      the whole struct; `set_cdata` adopts the given one. */
  function Store(c: ValueC, o: PyObject): (r: Result<ValueC>)
    decreases o, 1
  {
    match o
    case PyNone => Err(AvisynthError("invalid type: " + NONE_TYPE))
    case PyOther(t) => Err(AvisynthError("invalid type: " + t))
    case PyBool(b) => Ok(Released(c).(vtype := TAG_BOOL, d := BoolData(b)))
    case PyInt(i) => Ok(Released(c).(vtype := TAG_INT, d := IntData(Wrap32(i))))
    case PyFloat(bits) => Ok(Released(c).(vtype := TAG_FLOAT, d := FloatData(bits)))
    case PyStr(s) => Ok(Released(c).(vtype := TAG_STRING, d := StringData(s)))
    case PyClip(h) => Ok(ValueC(TAG_CLIP, 0, ClipData(h)))
    case PyValue(src, _, _) => Ok(src)
    case PyCData(x) => Ok(x)
    case PyList(items) =>
      match StoreElems(items, 0)
      case Ok(es) => Ok(ValueC(TAG_ARRAY, Wrap16(|items|), ArrayData(es)))
      case Err(e) => Err(e)
  }

  /** One element of `set_array`: an AVS_Value is copied as it is; anything
      else goes through a fresh `AVS_Value(value, env)`, for which None stays void. */
  function ElementC(e: PyObject): Result<ValueC>
    decreases e, 2
  {
    if e.PyValue? then Ok(e.src)
    else if e.PyNone? then Ok(VOID)
    else Store(VOID, e)
  }

  /** The elements `i ..` of the C array `set_array` fills, or the first error. */
  function StoreElems(items: seq<PyObject>, i: nat): (r: Result<seq<ValueC>>)
    ensures r.Ok? ==> |r.value| == if i <= |items| then |items| - i else 0
    decreases items, 0, if i <= |items| then |items| - i else 0
  {
    if i >= |items| then Ok([])
    else
      var here := ElementC(items[i]);
      if here.Err? then Err(here.error)
      else
        match StoreElems(items, i + 1)
        case Ok(rest) => Ok([here.value] + rest)
        case Err(e) => Err(e)
  }

  /** The strings `set_value(o)` pins, in order, up to the point where it fails. */
  function Pins(o: PyObject): seq<string>
    decreases o, 1
  {
    match o
    case PyStr(s) => [s]
    case PyList(items) => PinsElems(items, 0)
    case _ => []
  }

  function ElementPins(e: PyObject): seq<string>
    decreases e, 2
  {
    if e.PyValue? || e.PyNone? then [] else Pins(e)
  }

  function PinsElems(items: seq<PyObject>, i: nat): seq<string>
    decreases items, 0, if i <= |items| then |items| - i else 0
  {
    if i >= |items| then []
    else ElementPins(items[i]) + (if ElementC(items[i]).Err? then [] else PinsElems(items, i + 1))
  }

  /** How `Store` fails: the unsupported object is never released first, a
      list always is. */
  function FailedStore(c: ValueC, o: PyObject): ValueC {
    if o.PyList? then Released(c) else c
  }

  function Prepend(xs: seq<ValueC>, r: Result<seq<ValueC>>): Result<seq<ValueC>> {
    if r.Ok? then Ok(xs + r.value) else r
  }

  lemma PrependEmpty(r: Result<seq<ValueC>>)
    ensures Prepend([], r) == r
  {
    if r.Ok? {
      assert [] + r.value == r.value;
    }
  }

  lemma PrependTwice(xs: seq<ValueC>, x: ValueC, r: Result<seq<ValueC>>)
    ensures Prepend(xs, Prepend([x], r)) == Prepend(xs + [x], r)
  {
    if r.Ok? {
      assert xs + ([x] + r.value) == (xs + [x]) + r.value;
    }
  }

  lemma ConcatAssoc(a: seq<string>, b: seq<string>, c: seq<string>)
    ensures (a + b) + c == a + (b + c)
  {
  }

  lemma PinsElemsStep(items: seq<PyObject>, i: nat)
    requires i < |items| && ElementC(items[i]).Ok?
    ensures PinsElems(items, i) == ElementPins(items[i]) + PinsElems(items, i + 1)
  {
  }

  lemma StoreElemsStep(items: seq<PyObject>, i: nat)
    requires i < |items|
    ensures ElementC(items[i]).Ok? ==>
      StoreElems(items, i) == Prepend([ElementC(items[i]).value], StoreElems(items, i + 1))
    ensures ElementC(items[i]).Err? ==> StoreElems(items, i) == Err(ElementC(items[i]).error)
  {
  }

  // ---------------------------------------------------------------------
  // Setting then reading
  // ---------------------------------------------------------------------

  /** Objects built only from what `set_value` converts itself: no AVS_Value,
      no bare struct, no unsupported type, None only inside a list, and lists
      short enough for the `c_short` size field. */
  predicate Plain(o: PyObject)
    decreases o, 1
  {
    match o
    case PyNone => false
    case PyOther(_) => false
    case PyValue(_, _, _) => false
    case PyCData(_) => false
    case PyList(items) => |items| < 0x8000 && forall k :: 0 <= k < |items| ==> PlainElement(items[k])
    case _ => true
  }

  predicate PlainElement(e: PyObject)
    decreases e, 2
  {
    e.PyNone? || Plain(e)
  }

  /** What `get_value` gives back for a stored object: ints as the `c_int`
      keeps them, strings up to their first NUL, a bool as a bool. */
  function Expected(o: PyObject): HostValue
    decreases o, 1
  {
    match o
    case PyBool(b) => HBool(b)
    case PyInt(i) => HInt(Wrap32(i))
    case PyFloat(bits) => HFloat(bits)
    case PyStr(s) => HString(UpToNul(s))
    case PyClip(h) => HClip(h)
    case PyList(items) => HList(ExpectedList(items))
    case _ => HNone
  }

  function ExpectedList(items: seq<PyObject>): (r: seq<HostValue>)
    ensures |r| == |items|
    decreases items, 0
  {
    seq(|items|, k requires 0 <= k < |items| => ExpectedElement(items[k]))
  }

  function ExpectedElement(e: PyObject): HostValue
    decreases e, 2
  {
    if e.PyNone? then HNone else Expected(e)
  }

  /** Setting a plain object and reading it back with an environment gives
      the object back; a bool comes back as a bool, not as an int. */
  lemma {:induction false} StoreThenRead(c: ValueC, o: PyObject)
    requires Plain(o)
    ensures Store(c, o).Ok?
    ensures GetValue(Store(c, o).value, true) == Ok(Expected(o))
    ensures o.PyBool? ==> Store(c, o).value.vtype == TAG_BOOL
    decreases o, 1
  {
    if o.PyList? {
      StoreListThenRead(c, o.items);
    }
  }

  /** The list case of `StoreThenRead`: tag 'a', one element per item, each
      read back as stored. */
  lemma {:induction false} StoreListThenRead(c: ValueC, items: seq<PyObject>)
    requires Plain(PyList(items))
    ensures Store(c, PyList(items)).Ok?
    ensures GetValue(Store(c, PyList(items)).value, true) == Ok(HList(ExpectedList(items)))
    decreases PyList(items), 0
  {
    StoreElemsRead(items, 0);
    var es := StoreElems(items, 0).value;
    var v := ValueC(TAG_ARRAY, Wrap16(|items|), ArrayData(es));
    assert Store(c, PyList(items)) == Ok(v);
    ReadElems(v, items, 0);
    assert ExpectedList(items)[0..] == ExpectedList(items);
  }

  lemma {:induction false} ElementRead(e: PyObject)
    requires PlainElement(e)
    ensures ElementC(e).Ok?
    ensures GetValue(ElementC(e).value, true) == Ok(ExpectedElement(e))
    decreases e, 2
  {
    if !e.PyNone? {
      StoreThenRead(VOID, e);
    }
  }

  lemma {:induction false} StoreElemsRead(items: seq<PyObject>, i: nat)
    requires i <= |items|
    requires forall k :: i <= k < |items| ==> PlainElement(items[k])
    ensures StoreElems(items, i).Ok?
    ensures forall k :: i <= k < |items| ==>
      ElementC(items[k]).Ok? && StoreElems(items, i).value[k - i] == ElementC(items[k]).value &&
      GetValue(ElementC(items[k]).value, true) == Ok(ExpectedElement(items[k]))
    decreases items, 0, |items| - i
  {
    if i < |items| {
      ElementRead(items[i]);
      StoreElemsRead(items, i + 1);
    }
  }

  lemma {:induction false} ReadElems(v: ValueC, items: seq<PyObject>, i: nat)
    requires IsArray(v) && v.d.ArrayData? && |v.d.elems| == |items| == v.arraySize && i <= |items|
    requires forall k :: 0 <= k < |items| ==> GetValue(v.d.elems[k], true) == Ok(ExpectedElement(items[k]))
    ensures ArrayValues(v, true, i) == Ok(ExpectedList(items)[i..])
    decreases |items| - i
  {
    if i < |items| {
      ReadElems(v, items, i + 1);
      assert ExpectedList(items)[i..] == [ExpectedList(items)[i]] + ExpectedList(items)[i + 1..];
    }
  }

  // ---------------------------------------------------------------------
  // The engine interface
  // ---------------------------------------------------------------------

  /** The native entry points that `invoke`, `get_var` and `check_version` call. */
  datatype NativeEnv = NativeEnv(
    invoke: (string, ValueC, Option<seq<string>>) -> ValueC, // avs_invoke
    getVar: string -> ValueC,                                // avs_get_var
    checkVersion: int -> int)                                // avs_check_version

  function Target(a: ScriptEnvironment?, b: ScriptEnvironment?): ScriptEnvironment? {
    if a != null then a else b
  }

  function EnvSet(a: ScriptEnvironment?, b: ScriptEnvironment?): set<object> {
    (if a != null then {a as object} else {}) + (if b != null then {b as object} else {})
  }

  /** The environment the strings of `set_value(o, env)` go to: a top-level
      string uses `env or self.env`, `set_array` always `self.env`. */
  function PinTarget(o: PyObject, argEnv: ScriptEnvironment?, selfEnv: ScriptEnvironment?): ScriptEnvironment? {
    if o.PyStr? then Target(argEnv, selfEnv) else selfEnv
  }

  class ScriptEnvironment {
    const native: NativeEnv
    /** `weak_dict[self]`: the strings handed to the engine, kept alive. */
    var retained: seq<string>

    /** `AVS_ScriptEnvironment(version)`: registers an empty list. */
    constructor (native: NativeEnv)
      ensures this.native == native && retained == []
    {
      this.native := native;
      retained := [];
    }

    /** `invoke(name, args, arg_names)`: arguments that are not already an
        AVS_Value are wrapped with this environment (pinning their strings);
        an error-tagged result is raised with its text and never returned;
        anything else is converted with this environment. An empty or
        absent name list is passed as NULL. */
    method Invoke(name: string, args: PyObject, argNames: seq<string>) returns (r: Result<HostValue>)
      modifies this
      ensures ElementC(args).Err? ==> r == Err(ElementC(args).error)
      ensures var a := ElementC(args);
        a.Ok? ==>
          var ret := native.invoke(name, a.value, if |argNames| == 0 then None else Some(argNames));
          (IsError(ret) ==> r == Err(AvisynthError(ReadString(ret.d)))) &&
          (!IsError(ret) ==> r == GetValue(ret, true))
      ensures retained == old(retained) + ElementPins(args)
    {
      var a: ValueC;
      if args.PyValue? {
        a := args.src;
      } else {
        var v, err := Value.Create(args, this, true);
        if err.Some? {
          return Err(err.value);
        }
        a := v.cdata;
      }
      var ret := native.invoke(name, a, if |argNames| == 0 then None else Some(argNames));
      if IsError(ret) {
        return Err(AvisynthError(AsError(ret).value));
      }
      r := GetValue(ret, true);
    }

    /** `get_var(name, type=True)`: "NotFound" when the engine's answer has no
        type; otherwise the value, read with this environment, and its type. */
    function GetVar(name: string): (r: Result<(HostValue, string)>)
      ensures GetType(native.getVar(name)).None? <==> r == Err(AvisynthError("NotFound"))
      ensures r.Ok? ==> Some(r.value.1) == GetType(native.getVar(name)) &&
                        Ok(r.value.0) == GetValue(native.getVar(name), true)
      ensures r.Ok? && IsClip(native.getVar(name)) ==> r.value.0 == HClip(ReadClip(native.getVar(name).d))
    {
      var v := native.getVar(name);
      match GetType(v)
      case None => Err(AvisynthError("NotFound"))
      case Some(t) =>
        ReadWithEnvNeverFails(v);
        match GetValue(v, true)
        case Ok(x) => Ok((x, t))
        case Err(e) => Err(e)
    }

    /** `check_version(version)`: the engine answers 0 for yes, -1 for no. */
    function CheckVersion(version: int): (r: bool)
      ensures r <==> native.checkVersion(version) == 0
    {
      !(native.checkVersion(version) != 0)
    }
  }

  /** Reading with an environment never fails: `get_var` fails only with "NotFound". */
  lemma {:induction false} ReadWithEnvNeverFails(v: ValueC)
    ensures GetValue(v, true).Ok?
    decreases v, 1
  {
    if IsArray(v) {
      ElementsWithEnvNeverFail(v, 0);
    }
  }

  lemma {:induction false} ElementsWithEnvNeverFail(v: ValueC, i: nat)
    requires IsArray(v)
    ensures ArrayValues(v, true, i).Ok?
    decreases v, 0, if i < v.arraySize then v.arraySize - i else 0
  {
    if i < v.arraySize {
      if v.d.ArrayData? && i < |v.d.elems| {
        ReadWithEnvNeverFails(v.d.elems[i]);
      }
      ElementsWithEnvNeverFail(v, i + 1);
    }
  }

  lemma GetVarFailsOnlyNotFound(env: ScriptEnvironment, name: string)
    ensures env.GetVar(name).Err? ==> env.GetVar(name).error == AvisynthError("NotFound")
  {
    ReadWithEnvNeverFails(env.native.getVar(name));
  }

  // ---------------------------------------------------------------------
  // AVS_Value
  // ---------------------------------------------------------------------

  class Value {
    var cdata: ValueC
    var env: ScriptEnvironment?
    var releaseOnDel: bool

    /** `AVS_Value(None, env, release_on_del)`: a zeroed struct, then `set_void`. */
    constructor Void(env: ScriptEnvironment?, releaseOnDel: bool)
      ensures cdata == VOID && this.env == env && this.releaseOnDel == releaseOnDel
    {
      cdata := VOID;
      this.env := env;
      this.releaseOnDel := releaseOnDel;
    }

    /** `AVS_Value(value, env, release_on_del)`: `set_value(value, env)` unless
        the value is None. */
    static method Create(value: PyObject, env: ScriptEnvironment?, releaseOnDel: bool)
      returns (v: Value, err: Option<Error>)
      modifies EnvSet(env, null)
      ensures fresh(v)
      ensures ElementC(value).Ok? && !value.PyValue? ==> err == None && v.cdata == ElementC(value).value
      ensures ElementC(value).Err? ==> err == Some(ElementC(value).error)
      ensures v.env == if value.PyValue? && err == None then value.srcEnv else env
      ensures env != null ==> env.retained == old(env.retained) + ElementPins(value)
      ensures value.PyValue? ==> err == None && v.cdata == value.src
      decreases value, 2
    {
      v := new Value.Void(env, releaseOnDel);
      err := None;
      if !value.PyNone? {
        err := v.SetValue(value, env);
      }
    }

    /** `set_void`. */
    method SetVoid()
      modifies this
      ensures cdata == old(cdata).(vtype := TAG_VOID, arraySize := 0)
      ensures !IsDefined(cdata) && GetType(cdata).None?
      ensures env == old(env) && releaseOnDel == old(releaseOnDel)
    {
      cdata := cdata.(vtype := TAG_VOID, arraySize := 0);
    }

    /** `release()`: the native release does not touch the struct; a value
        still defined afterwards is voided. */
    method Release()
      modifies this
      ensures cdata == Released(old(cdata))
      ensures !IsDefined(cdata)
      ensures env == old(env) && releaseOnDel == old(releaseOnDel)
    {
      if IsDefined(cdata) {
        SetVoid();
      }
    }

    method SetBool(b: bool)
      modifies this
      ensures cdata == Store(old(cdata), PyBool(b)).value
      ensures AsBool(cdata) == Ok(b)
      ensures env == old(env) && releaseOnDel == old(releaseOnDel)
    {
      if IsDefined(cdata) {
        Release();
      }
      cdata := cdata.(vtype := TAG_BOOL, d := BoolData(b));
    }

    /** `set_int`: the union's `c_int` keeps 32 bits. */
    method SetInt(i: int)
      modifies this
      ensures cdata == Store(old(cdata), PyInt(i)).value
      ensures AsInt(cdata) == Ok(Wrap32(i))
      ensures -0x8000_0000 <= i < 0x8000_0000 ==> AsInt(cdata) == Ok(i)
      ensures env == old(env) && releaseOnDel == old(releaseOnDel)
    {
      if IsDefined(cdata) {
        Release();
      }
      cdata := cdata.(vtype := TAG_INT, d := IntData(Wrap32(i)));
    }

    method SetFloat(bits: bv32)
      modifies this
      ensures cdata == Store(old(cdata), PyFloat(bits)).value
      ensures AsFloat(cdata) == Ok(bits)
      ensures env == old(env) && releaseOnDel == old(releaseOnDel)
    {
      if IsDefined(cdata) {
        Release();
      }
      cdata := cdata.(vtype := TAG_FLOAT, d := FloatData(bits));
    }

    /** `set_string(value, env)`: the string is appended to the list of
        `env or self.env` when that is an environment, and nothing else there
        changes; reading it back stops at the first NUL. */
    method SetString(s: string, argEnv: ScriptEnvironment?)
      modifies this, EnvSet(argEnv, env)
      ensures cdata == Store(old(cdata), PyStr(s)).value
      ensures AsString(cdata) == Ok(UpToNul(s))
      ensures '\0' !in s ==> AsString(cdata) == Ok(s)
      ensures var t := Target(argEnv, old(env));
        t != null ==> t.retained == old(t.retained) + [s]
      ensures forall e: ScriptEnvironment :: e in EnvSet(argEnv, old(env)) && e != Target(argEnv, old(env)) ==>
        e.retained == old(e.retained)
      ensures env == old(env) && releaseOnDel == old(releaseOnDel)
    {
      if IsDefined(cdata) {
        Release();
      }
      var t := Target(argEnv, env);
      if t != null {
        t.retained := t.retained + [s];
      }
      cdata := cdata.(vtype := TAG_STRING, d := StringData(s));
      if '\0' !in s {
        UpToNulOfNulFree(s);
      }
    }

    /** `set_error` AS WRITTEN: like `set_string`, tag 's' included, so the
        value is a string and not an error. */
    method SetError(s: string, argEnv: ScriptEnvironment?)
      modifies this, EnvSet(argEnv, env)
      ensures cdata == Store(old(cdata), PyStr(s)).value
      ensures !IsError(cdata) && AsError(cdata) == Err(AvisynthError("Not an error"))
      ensures GetType(cdata) == Some("string")
      ensures var t := Target(argEnv, old(env));
        t != null ==> t.retained == old(t.retained) + [s]
      ensures env == old(env) && releaseOnDel == old(releaseOnDel)
    {
      if IsDefined(cdata) {
        Release();
      }
      var t := Target(argEnv, env);
      if t != null {
        t.retained := t.retained + [s];
      }
      cdata := cdata.(vtype := TAG_STRING, d := StringData(s));
    }

    /** `set_error` as evidently intended: tag 'e', so `as_error` reads the text back. */
    method SetErrorIntended(s: string, argEnv: ScriptEnvironment?)
      modifies this, EnvSet(argEnv, env)
      ensures cdata == Released(old(cdata)).(vtype := TAG_ERROR, d := StringData(s))
      ensures IsError(cdata) && AsError(cdata) == Ok(UpToNul(s))
      ensures GetType(cdata) == Some("error")
      ensures var t := Target(argEnv, old(env));
        t != null ==> t.retained == old(t.retained) + [s]
      ensures env == old(env) && releaseOnDel == old(releaseOnDel)
    {
      if IsDefined(cdata) {
        Release();
      }
      var t := Target(argEnv, env);
      if t != null {
        t.retained := t.retained + [s];
      }
      cdata := cdata.(vtype := TAG_ERROR, d := StringData(s));
    }

    /** `set_clip`: the native `avs_set_to_clip` rewrites the whole struct. */
    method SetClip(h: int)
      modifies this
      ensures cdata == Store(old(cdata), PyClip(h)).value
      ensures AsClip(cdata, true) == Ok(h)
      ensures env == old(env) && releaseOnDel == old(releaseOnDel)
    {
      if IsDefined(cdata) {
        Release();
      }
      cdata := ValueC(TAG_CLIP, 0, ClipData(h));
    }

    /** `set_cdata`: adopts the given struct. */
    method SetCData(c: ValueC)
      modifies this
      ensures cdata == c
      ensures env == old(env) && releaseOnDel == old(releaseOnDel)
    {
      if IsDefined(cdata) {
        Release();
      }
      cdata := c;
    }

    /** `copy_from`: the struct, environment and release flag of the other
        value, without releasing what this one held. */
    method CopyFrom(src: ValueC, srcEnv: ScriptEnvironment?, srcReleaseOnDel: bool)
      modifies this
      ensures cdata == src && env == srcEnv && releaseOnDel == srcReleaseOnDel
    {
      cdata := src;
      env := srcEnv;
      releaseOnDel := srcReleaseOnDel;
    }

    /** `set_array(values, env)`: releases, builds the C array element by
        element (each non-AVS_Value through a fresh wrapper with `env or
        self.env`), then stores tag 'a' and the length as a `c_short`. A
        failing element aborts with the value released and the strings of
        the elements before it (and its own before the failure) pinned. */
    method SetArray(values: seq<PyObject>, argEnv: ScriptEnvironment?) returns (err: Option<Error>)
      modifies this, EnvSet(argEnv, env)
      ensures StoreElems(values, 0).Ok? ==>
        err == None && cdata == ValueC(TAG_ARRAY, Wrap16(|values|), ArrayData(StoreElems(values, 0).value))
      ensures StoreElems(values, 0).Err? ==>
        err == Some(StoreElems(values, 0).error) && cdata == Released(old(cdata))
      ensures var t := Target(argEnv, old(env));
        t != null ==> t.retained == old(t.retained) + PinsElems(values, 0)
      ensures forall e: ScriptEnvironment :: e in EnvSet(argEnv, old(env)) && e != Target(argEnv, old(env)) ==>
        e.retained == old(e.retained)
      ensures env == old(env) && releaseOnDel == old(releaseOnDel)
      decreases values, 1
    {
      if IsDefined(cdata) {
        Release();
      }
      var t := Target(argEnv, env);
      var buf := new ValueC[|values|](_ => ValueC(0, 0, NoPayload));
      err := FillElements(values, t, buf);
      if err.None? {
        cdata := ValueC(TAG_ARRAY, Wrap16(|values|), ArrayData(buf[..]));
      }
    }

    /** The `for` loop of `set_array`: element i of the C array from `values[i]`,
        pinning strings in `t`; the first failing element stops it. */
    static method FillElements(values: seq<PyObject>, t: ScriptEnvironment?, buf: array<ValueC>)
      returns (err: Option<Error>)
      requires buf.Length == |values|
      modifies buf, EnvSet(t, null)
      ensures StoreElems(values, 0).Ok? ==> err == None && buf[..] == StoreElems(values, 0).value
      ensures StoreElems(values, 0).Err? ==> err == Some(StoreElems(values, 0).error)
      ensures t != null ==> t.retained == old(t.retained) + PinsElems(values, 0)
      decreases values, 0
    {
      ghost var pinned := if t != null then t.retained else [];
      var i := 0;
      assert buf[..0] == [];
      PrependEmpty(StoreElems(values, 0));
      while i < |values|
        invariant 0 <= i <= |values|
        invariant StoreElems(values, 0) == Prepend(buf[..i], StoreElems(values, i))
        invariant t != null ==> t.retained + PinsElems(values, i) == pinned + PinsElems(values, 0)
        invariant t != null ==> pinned == old(t.retained)
        modifies buf, EnvSet(t, null)
      {
        StoreElemsStep(values, i);
        ghost var before := if t != null then t.retained else [];
        var element: ValueC;
        if values[i].PyValue? {
          element := values[i].src;
        } else {
          var tmp, e := Create(values[i], t, true);
          if e.Some? {
            assert t != null ==> t.retained == pinned + PinsElems(values, 0);
            return e;
          }
          element := tmp.cdata;
        }
        if t != null {
          assert t.retained == before + ElementPins(values[i]);
          PinsElemsStep(values, i);
          ConcatAssoc(before, ElementPins(values[i]), PinsElems(values, i + 1));
        }
        PrependTwice(buf[..i], element, StoreElems(values, i + 1));
        buf[i] := element;
        assert buf[..i + 1] == buf[..i] + [element];
        i := i + 1;
      }
      assert buf[..i] == buf[..];
      assert StoreElems(values, i) == Ok([]);
      assert buf[..] + [] == buf[..];
      err := None;
    }

    /** `set_value(value, env)`: dispatch in the order bool, int, float,
        string, clip, AVS_Value, ctypes struct, iterable, else
        "invalid type". The result is `Store` of the old struct; a failure
        leaves what `FailedStore` says. */
    method SetValue(o: PyObject, argEnv: ScriptEnvironment?) returns (err: Option<Error>)
      modifies this, EnvSet(argEnv, env)
      ensures Store(old(cdata), o).Ok? ==> err == None && cdata == Store(old(cdata), o).value
      ensures Store(old(cdata), o).Err? ==>
        err == Some(Store(old(cdata), o).error) && cdata == FailedStore(old(cdata), o)
      ensures o.PyValue? ==> env == o.srcEnv && releaseOnDel == o.srcReleaseOnDel
      ensures !o.PyValue? ==> env == old(env) && releaseOnDel == old(releaseOnDel)
      ensures var t := PinTarget(o, argEnv, old(env));
        t != null ==> t.retained == old(t.retained) + Pins(o)
      ensures forall e: ScriptEnvironment :: e in EnvSet(argEnv, old(env)) && e != PinTarget(o, argEnv, old(env)) ==>
        e.retained == old(e.retained)
      decreases o, 1
    {
      err := None;
      match o
      case PyBool(b) => SetBool(b);
      case PyInt(i) => SetInt(i);
      case PyFloat(bits) => SetFloat(bits);
      case PyStr(s) => SetString(s, argEnv);
      case PyClip(h) => SetClip(h);
      case PyValue(src, e, rel) => CopyFrom(src, e, rel);
      case PyCData(c) => SetCData(c);
      case PyList(items) => err := SetArray(items, null);
      case PyNone => err := Some(AvisynthError("invalid type: " + NONE_TYPE));
      case PyOther(t) => err := Some(AvisynthError("invalid type: " + t));
    }
  }
}
