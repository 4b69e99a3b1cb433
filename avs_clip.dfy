/** `AVS_Clip` of avisynth.py: the clip handle with its two error channels,
    the engine's (`avs_clip_get_error`) and the binding's own `_error`, which
    holds the text of a Python exception raised while fetching a frame. */
module AvsClip {

  import opened Wrappers
  import opened AvsFrame
  import opened AvsVideoInfo

  /** What one call of the native `avs_get_frame` does. */
  datatype FetchOutcome =
    | Delivered(frame: Frame)                   // a frame pointer
    | EngineError(message: string)              // NULL, and the engine records `message`
    | HostException(name: string, text: string) // a Python exception escapes the call

  /** The engine side of a clip: the outcome of fetching each frame, and the
      descriptor `avs_get_video_info` points at. */
  datatype NativeClip = NativeClip(fetch: int -> FetchOutcome, info: VideoInfoC)
  {
    /** The engine never records an empty error message. */
    ghost predicate WellBehaved() {
      forall n :: fetch(n).EngineError? ==> |fetch(n).message| > 0
    }
  }

  /** `''.join(traceback.format_exception_only(type(err), err))`. */
  function FormatExceptionOnly(name: string, text: string): (r: string)
    ensures |r| > 0 && r[|r| - 1] == '\n'
    ensures |r| > |name| && r[..|name|] == name
  {
    if |text| == 0 then name + "\n" else name + ": " + text + "\n"
  }

  class Clip {
    const native: NativeClip
    /** `_error`: the binding's own error text. */
    var error: Option<string>
    /** The error slot the engine keeps for this clip. */
    var engineError: Option<string>

    /** `AVS_Clip(clip)`: no error of its own yet. */
    constructor (native: NativeClip)
      ensures this.native == native && error == None && engineError == None
    {
      this.native := native;
      error := None;
      engineError := None;
    }

    /** `get_frame(n)`: `_error` is reset before the fetch; an engine failure
        comes back as a NULL frame with the message in the engine's slot; a
        Python exception is caught, its text stored in `_error`, and `None`
        returned. */
    method GetFrame(n: int) returns (r: Option<FramePtr>)
      modifies this
      ensures native.fetch(n).Delivered? ==>
        r == Some(Ptr(native.fetch(n).frame)) && error == None && engineError == None
      ensures native.fetch(n).EngineError? ==>
        r == Some(Null) && error == None && engineError == Some(native.fetch(n).message)
      ensures native.fetch(n).HostException? ==>
        r == None && engineError == old(engineError) &&
        error == Some(FormatExceptionOnly(native.fetch(n).name, native.fetch(n).text))
    {
      error := None;
      match native.fetch(n)
      case Delivered(f) =>
        engineError := None;
        r := Some(Ptr(f));
      case EngineError(m) =>
        engineError := Some(m);
        r := Some(Null);
      case HostException(name, text) =>
        error := Some(FormatExceptionOnly(name, text));
        r := None;
    }

    /** `get_error()`: the engine's message if it is a non-empty string, else
        the binding's own; `_error` is consumed either way. */
    method GetError() returns (e: Option<string>)
      modifies this
      ensures Truthy(old(engineError)) ==> e == old(engineError)
      ensures !Truthy(old(engineError)) ==> e == old(error)
      ensures error == None && engineError == old(engineError)
    {
      e := OrElse(engineError, error);
      error := None;
    }
  }

  /** `get_frame(n)` followed by `get_error()`, as a caller of the binding
      tests a fetch: the error is reported exactly when the fetch did not
      deliver, and an engine failure reports the engine's message, provided
      the engine's messages are non-empty. */
  method FetchThenError(c: Clip, n: int) returns (frame: Option<FramePtr>, e: Option<string>)
    requires c.native.WellBehaved()
    modifies c
    ensures c.native.fetch(n).Delivered? <==> !Truthy(e)
    ensures c.native.fetch(n).Delivered? ==> frame == Some(Ptr(c.native.fetch(n).frame))
    ensures c.native.fetch(n).EngineError? ==> e == Some(c.native.fetch(n).message)
    ensures c.error == None
  {
    frame := c.GetFrame(n);
    e := c.GetError();
  }
}
