/** The `AVS_Value_C` struct of avisynth.py as a value, and the read side of
    `AVS_Value`: the tag tests, `get_type`, the `as_*` accessors, `array_size`,
    `array_elt` and `get_value`. The struct is a 16-bit `type` tag (one of the
    characters v b i f s e c a), a 16-bit `array_size` and a union payload. */
module AvsValue {

  import opened Wrappers

  const TAG_VOID: int := 'v' as int
  const TAG_BOOL: int := 'b' as int
  const TAG_INT: int := 'i' as int
  const TAG_FLOAT: int := 'f' as int
  const TAG_STRING: int := 's' as int
  const TAG_ERROR: int := 'e' as int
  const TAG_CLIP: int := 'c' as int
  const TAG_ARRAY: int := 'a' as int

  // ---------------------------------------------------------------------
  // Fixed-width C storage
  // ---------------------------------------------------------------------

  /** Storing into a `c_int` keeps the value modulo 2^32, read back signed. */
  function Wrap32(i: int): (r: int)
    ensures -0x8000_0000 <= r < 0x8000_0000
    ensures (i - r) % 0x1_0000_0000 == 0
    ensures -0x8000_0000 <= i < 0x8000_0000 ==> r == i
  {
    var m := i % 0x1_0000_0000;
    if m < 0x8000_0000 then m else m - 0x1_0000_0000
  }

  /** Storing into a `c_short` keeps the value modulo 2^16, read back signed. */
  function Wrap16(i: int): (r: int)
    ensures -0x8000 <= r < 0x8000
    ensures (i - r) % 0x1_0000 == 0
    ensures -0x8000 <= i < 0x8000 ==> r == i
  {
    var m := i % 0x1_0000;
    if m < 0x8000 then m else m - 0x1_0000
  }

  /** Reading a `c_char_p` yields the bytes before the first NUL. */
  function UpToNul(s: string): (r: string)
    ensures |r| <= |s| && r == s[..|r|]
    ensures '\0' !in r
    ensures |r| < |s| ==> s[|r|] == '\0'
    decreases |s|
  {
    if |s| == 0 || s[0] == '\0' then "" else [s[0]] + UpToNul(s[1..])
  }

  lemma {:induction false} UpToNulOfNulFree(s: string)
    requires '\0' !in s
    ensures UpToNul(s) == s
    decreases |s|
  {
    if |s| > 0 {
      assert '\0' !in s[1..];
      UpToNulOfNulFree(s[1..]);
      assert [s[0]] + s[1..] == s;
    }
  }

  // ---------------------------------------------------------------------
  // The struct
  // ---------------------------------------------------------------------

  /** The union member last written: `b`, `i`, `f` (its IEEE bits), `s`, the
      clip handle, or the element array `a`. */
  datatype Payload =
    | NoPayload
    | BoolData(b: bool)
    | IntData(i: int)
    | FloatData(bits: bv32)
    | StringData(s: string)
    | ClipData(clip: int)
    | ArrayData(elems: seq<ValueC>)

  datatype ValueC = ValueC(vtype: int, arraySize: int, d: Payload)

  /** A freshly constructed `AVS_Value` after its `set_void`. */
  const VOID: ValueC := ValueC(TAG_VOID, 0, NoPayload)

  /** What the Python side gets back from `get_value`; `HNone` is Python's None. */
  datatype HostValue =
    | HNone
    | HBool(b: bool)
    | HInt(i: int)
    | HFloat(bits: bv32)
    | HString(s: string)
    | HClip(clip: int)
    | HList(items: seq<HostValue>)

  predicate IsDefined(v: ValueC) { v.vtype != 0 && v.vtype != TAG_VOID }
  predicate IsBool(v: ValueC) { v.vtype == TAG_BOOL }
  predicate IsInt(v: ValueC) { v.vtype == TAG_INT }
  predicate IsFloat(v: ValueC) { v.vtype == TAG_FLOAT || v.vtype == TAG_INT }
  predicate IsString(v: ValueC) { v.vtype == TAG_STRING }
  predicate IsError(v: ValueC) { v.vtype == TAG_ERROR }
  predicate IsClip(v: ValueC) { v.vtype == TAG_CLIP }
  predicate IsArray(v: ValueC) { v.vtype == TAG_ARRAY }

  /** The tag agrees with the union member, and an array's stored size is its
      length as a `c_short` keeps it; what every setter of the binding leaves. */
  predicate WellFormed(v: ValueC)
    decreases v
  {
    && (IsBool(v) ==> v.d.BoolData?)
    && (IsInt(v) ==> v.d.IntData? && -0x8000_0000 <= v.d.i < 0x8000_0000)
    && (v.vtype == TAG_FLOAT ==> v.d.FloatData?)
    && (IsString(v) || IsError(v) ==> v.d.StringData? && '\0' !in v.d.s)
    && (IsClip(v) ==> v.d.ClipData?)
    && (IsArray(v) ==> v.d.ArrayData? && v.arraySize == Wrap16(|v.d.elems|) &&
                       forall k :: 0 <= k < |v.d.elems| ==> WellFormed(v.d.elems[k]))
  }

  // ----- union reads (a member other than the one written reads as a default)

  function ReadBool(d: Payload): bool { if d.BoolData? then d.b else false }
  function ReadInt(d: Payload): int { if d.IntData? then Wrap32(d.i) else 0 }
  /** `d.f` on an int payload reinterprets the int's 32 bits. */
  function ReadFloat(d: Payload): bv32 {
    if d.FloatData? then d.bits
    else if d.IntData? then (d.i % 0x1_0000_0000) as bv32
    else 0
  }
  function ReadString(d: Payload): string { if d.StringData? then UpToNul(d.s) else "" }
  function ReadClip(d: Payload): int { if d.ClipData? then d.clip else 0 }

  // ---------------------------------------------------------------------
  // get_type and the accessors
  // ---------------------------------------------------------------------

  /** `get_type`: the tests run in the order bool, int, float, string, error,
      clip, array, so an int is reported as "int" although it also passes
      `is_float`; None for any other tag. */
  function GetType(v: ValueC): (r: Option<string>)
    ensures r.None? <==> v.vtype !in {TAG_BOOL, TAG_INT, TAG_FLOAT, TAG_STRING, TAG_ERROR, TAG_CLIP, TAG_ARRAY}
    ensures IsInt(v) ==> r == Some("int")
    ensures IsFloat(v) && !IsInt(v) ==> r == Some("float")
    ensures IsError(v) <==> r == Some("error")
    ensures r == Some("array") <==> IsArray(v)
  {
    if IsBool(v) then Some("bool")
    else if IsInt(v) then Some("int")
    else if IsFloat(v) then Some("float")
    else if IsString(v) then Some("string")
    else if IsError(v) then Some("error")
    else if IsClip(v) then Some("clip")
    else if IsArray(v) then Some("array")
    else None
  }

  function AsBool(v: ValueC): (r: Result<bool>)
    ensures r.Ok? <==> IsBool(v)
    ensures r.Err? ==> r.error == AvisynthError("Not a bool")
  {
    if IsBool(v) then Ok(ReadBool(v.d)) else Err(AvisynthError("Not a bool"))
  }

  function AsInt(v: ValueC): (r: Result<int>)
    ensures r.Ok? <==> IsInt(v)
    ensures r.Ok? ==> -0x8000_0000 <= r.value < 0x8000_0000
    ensures r.Err? ==> r.error == AvisynthError("Not an int")
  {
    if IsInt(v) then Ok(ReadInt(v.d)) else Err(AvisynthError("Not an int"))
  }

  /** `as_float` accepts an int tag too and then reads the int's bits. */
  function AsFloat(v: ValueC): (r: Result<bv32>)
    ensures r.Ok? <==> v.vtype == TAG_FLOAT || v.vtype == TAG_INT
    ensures r.Err? ==> r.error == AvisynthError("Not a float")
  {
    if IsFloat(v) then Ok(ReadFloat(v.d)) else Err(AvisynthError("Not a float"))
  }

  function AsString(v: ValueC): (r: Result<string>)
    ensures r.Ok? <==> IsString(v)
    ensures r.Ok? ==> '\0' !in r.value
    ensures r.Err? ==> r.error == AvisynthError("Not a string")
  {
    if IsString(v) then Ok(ReadString(v.d)) else Err(AvisynthError("Not a string"))
  }

  function AsError(v: ValueC): (r: Result<string>)
    ensures r.Ok? <==> IsError(v)
    ensures r.Ok? ==> '\0' !in r.value
    ensures r.Err? ==> r.error == AvisynthError("Not an error")
  {
    if IsError(v) then Ok(ReadString(v.d)) else Err(AvisynthError("Not an error"))
  }

  /** `as_clip(env)`: `hasEnv` says whether `env or self.env` is an environment. */
  function AsClip(v: ValueC, hasEnv: bool): (r: Result<int>)
    ensures r.Ok? <==> IsClip(v) && hasEnv
    ensures !IsClip(v) ==> r == Err(AvisynthError("Not a clip"))
    ensures IsClip(v) && !hasEnv ==> r == Err(AvisynthError("AVS_Value.as_clip needs an environment"))
  {
    if IsClip(v) then
      if hasEnv then Ok(ReadClip(v.d))
      else Err(AvisynthError("AVS_Value.as_clip needs an environment"))
    else Err(AvisynthError("Not a clip"))
  }

  /** `array_size()`: the stored size for an array, 1 for anything else. */
  function ArraySize(v: ValueC): (r: int)
    ensures !IsArray(v) ==> r == 1
    ensures WellFormed(v) && IsArray(v) && |v.d.elems| < 0x8000 ==> r == |v.d.elems|
  {
    if IsArray(v) then v.arraySize else 1
  }

  /** `get_value(env)`: dispatch on the tag in the order of the `is_*` tests;
      a void or unknown tag gives None. */
  function GetValue(v: ValueC, hasEnv: bool): (r: Result<HostValue>)
    ensures r.Err? ==> r.error.AvisynthError?
    ensures IsBool(v) ==> r == Ok(HBool(ReadBool(v.d)))
    ensures IsInt(v) ==> r == Ok(HInt(ReadInt(v.d)))
    ensures v.vtype == TAG_FLOAT ==> r == Ok(HFloat(ReadFloat(v.d)))
    ensures IsString(v) || IsError(v) ==> r == Ok(HString(ReadString(v.d)))
    ensures IsClip(v) ==> (r.Ok? <==> hasEnv) && (hasEnv ==> r == Ok(HClip(ReadClip(v.d))))
    ensures GetType(v).None? ==> r == Ok(HNone)
    decreases v, 1
  {
    if IsBool(v) then Ok(HBool(ReadBool(v.d)))
    else if IsInt(v) then Ok(HInt(ReadInt(v.d)))
    else if IsFloat(v) then Ok(HFloat(ReadFloat(v.d)))
    else if IsString(v) then Ok(HString(ReadString(v.d)))
    else if IsError(v) then Ok(HString(ReadString(v.d)))
    else if IsClip(v) then
      if hasEnv then Ok(HClip(ReadClip(v.d)))
      else Err(AvisynthError("AVS_Value.as_clip needs an environment"))
    else if IsArray(v) then
      match ArrayValues(v, hasEnv, 0)
      case Ok(items) => Ok(HList(items))
      case Err(e) => Err(e)
    else Ok(HNone)
  }

  /** The elements `i ..` of `as_array`, each read with the array's environment;
      the first failing element's error wins. */
  function ArrayValues(v: ValueC, hasEnv: bool, i: nat): (r: Result<seq<HostValue>>)
    requires IsArray(v)
    ensures r.Err? ==> r.error.AvisynthError?
    ensures r.Ok? ==> |r.value| == if i < v.arraySize then v.arraySize - i else 0
    decreases v, 0, if i < v.arraySize then v.arraySize - i else 0
  {
    if i >= v.arraySize then Ok([])
    else
      var here := ElementValue(v, i, hasEnv);
      if here.Err? then Err(here.error)
      else
        match ArrayValues(v, hasEnv, i + 1)
        case Ok(rest) => Ok([here.value] + rest)
        case Err(e) => Err(e)
  }

  /** Element `i` of an array read through a fresh wrapper; past the elements
      actually stored (a size the struct does not back) it reads as None. */
  function ElementValue(v: ValueC, i: nat, hasEnv: bool): (r: Result<HostValue>)
    requires IsArray(v)
    ensures r.Err? ==> r.error.AvisynthError?
    decreases v, 0, 0
  {
    if v.d.ArrayData? && i < |v.d.elems| then GetValue(v.d.elems[i], hasEnv) else Ok(HNone)
  }

  /** `array_elt(index, env)`: IndexError outside `[0, array_size())`; a
      non-array answers index 0 with itself. */
  function ArrayElt(v: ValueC, index: int, hasEnv: bool): (r: Result<HostValue>)
    ensures !(0 <= index < ArraySize(v)) <==> r == Err(IndexError)
    ensures !IsArray(v) && index == 0 ==> r == GetValue(v, hasEnv)
  {
    if !(0 <= index < ArraySize(v)) then Err(IndexError)
    else if IsArray(v) then ElementValue(v, index, hasEnv)
    else GetValue(v, hasEnv)
  }

  /** `as_array` yields exactly `array_elt(0) .. array_elt(array_size() - 1)`. */
  lemma {:induction false} AsArrayIsElements(v: ValueC, hasEnv: bool, i: nat)
    requires IsArray(v) && ArrayValues(v, hasEnv, i).Ok?
    ensures forall k :: i <= k < v.arraySize ==>
      ArrayElt(v, k, hasEnv).Ok? && ArrayValues(v, hasEnv, i).value[k - i] == ArrayElt(v, k, hasEnv).value
    decreases if i < v.arraySize then v.arraySize - i else 0
  {
    if i < v.arraySize {
      AsArrayIsElements(v, hasEnv, i + 1);
    }
  }

  /** Without a clip anywhere inside, reading never fails, environment or not. */
  predicate ClipFree(v: ValueC)
    decreases v
  {
    !IsClip(v) &&
    (IsArray(v) && v.d.ArrayData? ==> forall k :: 0 <= k < |v.d.elems| ==> ClipFree(v.d.elems[k]))
  }

  lemma {:induction false} ClipFreeReadsWithoutEnv(v: ValueC)
    requires ClipFree(v)
    ensures GetValue(v, false) == GetValue(v, true)
    ensures GetValue(v, false).Ok?
    decreases v, 1
  {
    if IsArray(v) {
      ClipFreeElementsReadWithoutEnv(v, 0);
    }
  }

  lemma {:induction false} ClipFreeElementsReadWithoutEnv(v: ValueC, i: nat)
    requires IsArray(v) && ClipFree(v)
    ensures ArrayValues(v, false, i) == ArrayValues(v, true, i)
    ensures ArrayValues(v, false, i).Ok?
    decreases v, 0, if i < v.arraySize then v.arraySize - i else 0
  {
    if i < v.arraySize {
      if v.d.ArrayData? && i < |v.d.elems| {
        ClipFreeReadsWithoutEnv(v.d.elems[i]);
      }
      ClipFreeElementsReadWithoutEnv(v, i + 1);
    }
  }

  // ---------------------------------------------------------------------
  // release
  // ---------------------------------------------------------------------

  /** The struct after `release()`: the native release leaves the struct as it
      is, then a defined value is voided (tag 'v', size 0); the stale union
      member stays behind. */
  function Released(v: ValueC): (r: ValueC)
    ensures !IsDefined(r)
    ensures r.d == v.d
    ensures IsDefined(v) ==> r.vtype == TAG_VOID && r.arraySize == 0
    ensures !IsDefined(v) ==> r == v
  {
    if IsDefined(v) then v.(vtype := TAG_VOID, arraySize := 0) else v
  }

  /** Released values read as None whatever they held. */
  lemma ReleasedReadsNone(v: ValueC, hasEnv: bool)
    ensures GetType(Released(v)) == None
    ensures GetValue(Released(v), hasEnv) == Ok(HNone)
  {
  }
}
