# AvsP's AviSynth binding and clip wrapper, modelled in Dafny

This project models two layers of AvsPmod's Python code.

The first layer is the ctypes binding to the AviSynth C interface (`avisynth.py`). It covers:

- the tagged `AVS_Value` union. The model has its 16-bit `type` and `array_size` fields, its setters, its `is_*` / `as_*` / `get_type` / `get_value` readers, its array access and `release`, and the list of strings a script environment keeps alive.
- the error translation of `AVS_ScriptEnvironment.invoke`, `get_var` and `check_version`.
- the `_error` channel of `AVS_Clip.get_frame` / `get_error`.
- `AVS_VideoFrame.get_offset`.
- the bitmask predicates, audio helpers and mutators of `AVS_VideoInfo`, including `set_fps` and its Euclid loop.
- the colourspace, plane, image-type and sample-type constants of `class avs`.

The second layer is the clip wrapper `AvsClipBase` (`pyavs.py`). It covers:

- the frame cache of `_GetFrame`.
- the per-colourspace pixel addressing of `GetPixelYUV` / `GetPixelRGB` / `GetPixelRGBA`.
- the yuv4mpeg2 stream header of `Y4MHeader`, with its `/n`, `xn`, `*n` size strings.
- the raw-frame layout of `RawFrame`, including its loop over the planes.
- the two-pass border scan of `AutocropFrame`.
- the conversion-matrix choice in `CreateDisplayClip`.
- the width and height arithmetic of `CreateErrorClip`.
- the bottom-up row copy of the wxPython `AvsClip.DrawFrame`.

Every native AviSynth entry point is a parameter of the model: an uninterpreted function stored in a datatype. These are:

- `NativeClip.fetch`, which is `avs_get_frame` together with the engine's error.
- `NativeEnv`, which is `avs_invoke`, `avs_get_var` and `avs_check_version`.
- the per-plane queries and read pointers of `AvsFrame.Frame`.
- the format queries of `PyavsClip.FormatQueries`.

Frame memory is a function from index to byte. The state that the source changes in place is modelled as Dafny classes with `modifies` clauses. These classes are `AVS_Value`, the environment's list of kept strings, `AVS_VideoInfo`, `AVS_Clip` and `AvsClipBase`.

Python 2 semantics are written out explicitly:

- `/` and `>>` on ints are floor operations. `Shr` is defined by division by a power of two.
- `re.match` is anchored at the start only.
- an empty string or `None` is false.
- a `c_int` wraps modulo 2^32.
- a `c_short` wraps modulo 2^16.
- a `c_char_p` read stops at the first NUL.

Modules, one per file:

- `Wrappers`: `Option`, `Result` and the Python exceptions the code raises.
- `Text`: `str.split`, `str.join` and decimal formatting and parsing.
- `AvsConstants`: the constants of `class avs`.
- `AvsVideoInfo`: `AVS_VideoInfo`.
- `AvsFrame`: `AVS_VideoFrame`.
- `AvsClip`: `AVS_Clip`.
- `AvsValue`: the read side of `AVS_Value`.
- `AvsScript`: the write side of `AVS_Value` and `AVS_ScriptEnvironment`.
- `PyavsLayout`: index arithmetic and the pure helpers of `pyavs.py`.
- `Y4m`: `Y4MHeader` and the `FRAME` header.
- `PyavsClip`: the `AvsClipBase` class.

## Model

| member | source | states |
|---|---|---|
| AvsValue.Wrap32 | avisynth.py:879-883 | the `c_int` payload keeps the value modulo 2^32 as a signed int, and is the identity inside the int32 range |
| AvsValue.Wrap16 | avisynth.py:1082-1084 | the `c_short` `type` and `array_size` fields keep a value modulo 2^16, and are the identity inside the int16 range |
| AvsValue.UpToNul | avisynth.py:1006-1016 | a `c_char_p` read returns the longest NUL-free prefix of the stored text |
| AvsValue.UpToNulOfNulFree | avisynth.py:1006-1010 | a NUL-free string reads back unchanged |
| AvsValue.GetType | avisynth.py:937-954 | None exactly when the tag is none of b/i/f/s/e/c/a; an int tag gives "int" before "float"; "error" and "array" exactly for their tags |
| AvsValue.AsBool | avisynth.py:988-992 | Ok exactly when the tag is 'b'; otherwise AvisynthError "Not a bool" |
| AvsValue.AsInt | avisynth.py:994-998 | Ok exactly when the tag is 'i', with a value in the int32 range; otherwise "Not an int" |
| AvsValue.AsFloat | avisynth.py:1000-1004 | Ok for tag 'f' and also for tag 'i'; otherwise "Not a float" |
| AvsValue.AsString | avisynth.py:1006-1010 | Ok exactly when the tag is 's', with NUL-free text; otherwise "Not a string" |
| AvsValue.AsError | avisynth.py:1012-1016 | Ok exactly when the tag is 'e'; otherwise "Not an error" |
| AvsValue.AsClip | avisynth.py:1018-1025 | Ok exactly for a clip tag with an environment; without a clip tag, "Not a clip"; with no environment, the environment error |
| AvsValue.ArraySize | avisynth.py:1033-1034 | 1 for a non-array; the element count for a well-formed array |
| AvsValue.GetValue | avisynth.py:979-986 | for any struct, engine-built or not: tag 'b' reads as its bool, tag 'i' as its int (not a float), tag 'f' as its float, tags 's' and 'e' as their text, a clip as its handle exactly when there is an environment, and an unknown or void tag as None; the only failures are AvisynthErrors |
| AvsValue.ArrayValues | avisynth.py:1027-1031 | `as_array` gives array_size - i elements, or fails with an AvisynthError |
| AvsValue.ElementValue | avisynth.py:1036-1040 | one fresh-wrapper element read; failures are AvisynthErrors |
| AvsValue.ArrayElt | avisynth.py:1036-1040 | IndexError exactly outside [0, array_size()); on a non-array, index 0 is the value itself |
| AvsValue.AsArrayIsElements | avisynth.py:1027-1040 | element k of `as_array` is `array_elt(k)` |
| AvsValue.ClipFreeReadsWithoutEnv | avisynth.py:979-986 | a value with no clip inside reads the same with or without an environment, and never fails |
| AvsValue.ClipFreeElementsReadWithoutEnv | avisynth.py:1027-1031 | the same for the elements of an array |
| AvsValue.Released | avisynth.py:1053-1059 | after `release` the value is not defined; a defined value becomes 'v' with array_size 0, and an undefined one is unchanged |
| AvsValue.ReleasedReadsNone | avisynth.py:1053-1059 | a released value has no type and reads as None |
| AvsScript.StoreElems | avisynth.py:918-930 | the C array `set_array` fills has one element per remaining value |
| AvsScript.StoreElemsStep | avisynth.py:922-928 | element i comes from values[i], and the first element that fails stops the fill with that error |
| AvsScript.PinsElemsStep | avisynth.py:922-928 | the strings kept for an array are those of element i, then those of the rest |
| AvsScript.ExpectedList | avisynth.py:1027-1031 | one expected read-back per stored element |
| AvsScript.StoreListThenRead | avisynth.py:918-930 | a list of plain objects stored as an array value reads back as the list of their expected payloads, element by element |
| AvsScript.StoreThenRead | avisynth.py:843-900 | setting a plain Python object and reading it back gives the stored payload (ints wrapped to 32 bits); True is stored with tag 'b', not 'i' |
| AvsScript.ElementRead | avisynth.py:918-930 | the same round trip for one array element |
| AvsScript.StoreElemsRead | avisynth.py:918-930 | the fill of plain elements succeeds, and each element reads back as stored |
| AvsScript.ReadElems | avisynth.py:1027-1031 | `as_array` of a filled array gives back the list of expected values |
| AvsScript.ReadWithEnvNeverFails | avisynth.py:979-986 | with an environment, `get_value` never raises |
| AvsScript.ElementsWithEnvNeverFail | avisynth.py:1027-1031 | with an environment, `as_array` never raises |
| AvsScript.GetVarFailsOnlyNotFound | avisynth.py:397-406 | `get_var`'s only failure is "NotFound" |
| AvsScript.ScriptEnvironment.constructor | avisynth.py:347-349 | a new environment keeps an empty list of strings |
| AvsScript.ScriptEnvironment.Invoke | avisynth.py:359-373 | an argument that cannot be converted raises its error; an error-tagged result raises with its text and is never returned; otherwise the result is read back; the kept strings grow by exactly the argument's strings |
| AvsScript.ScriptEnvironment.GetVar | avisynth.py:397-406 | "NotFound" exactly when the engine's answer has no type; otherwise the value and its type name |
| AvsScript.ScriptEnvironment.CheckVersion | avisynth.py:380-382 | true exactly when the engine answers 0 |
| AvsScript.Value.Void | avisynth.py:822-828 | a new value without a payload is void |
| AvsScript.Value.Create | avisynth.py:822-828 | the constructor stores the object, or copies an AVS_Value together with its environment; the environment's kept strings grow by what the object pins |
| AvsScript.Value.SetVoid | avisynth.py:864-866 | tag 'v', array_size 0, no type |
| AvsScript.Value.Release | avisynth.py:1053-1059 | the struct becomes `Released` of the old one |
| AvsScript.Value.SetBool | avisynth.py:873-877 | the old value is released, then tag 'b'; `as_bool` returns the value |
| AvsScript.Value.SetInt | avisynth.py:879-883 | the old value is released, then tag 'i'; `as_int` returns the value modulo 2^32, or the value itself inside the int32 range |
| AvsScript.Value.SetFloat | avisynth.py:885-889 | the old value is released, then tag 'f'; `as_float` returns the stored bits |
| AvsScript.Value.SetString | avisynth.py:891-900 | the old value is released, then tag 's'; `as_string` returns the text up to the first NUL; exactly the text is appended to the target environment's list, and other environments are unchanged |
| AvsScript.Value.SetError | avisynth.py:902-911 | as written: the tag is 's', so `is_error` is false and `as_error` raises |
| AvsScript.Value.SetErrorIntended | avisynth.py:902-911 | corrected: the tag is 'e', and `as_error` returns the text |
| AvsScript.Value.SetClip | avisynth.py:913-916 | the old value is released; `as_clip` returns the handle |
| AvsScript.Value.SetCData | avisynth.py:868-871 | the value adopts the given struct |
| AvsScript.Value.CopyFrom | avisynth.py:859-862 | the struct, environment and release flag of the source |
| AvsScript.Value.SetArray | avisynth.py:918-930 | tag 'a', array_size len(values), element i from values[i]; the first unconvertible element raises; strings are kept in the target environment only |
| AvsScript.Value.FillElements | avisynth.py:922-928 | the `for` loop writes exactly the converted elements, and the kept strings grow by theirs |
| AvsScript.Value.SetValue | avisynth.py:843-854 | dispatch in the order bool, int, float, string, clip, AVS_Value, ctypes struct, iterable; the new struct is `Store` of the old one; anything else raises "invalid type" without touching the struct |
| AvsClip.FormatExceptionOnly | avisynth.py:702 | the host exception text starts with the exception name and ends with a newline |
| AvsClip.Clip.constructor | avisynth.py:677-679 | a new clip has no stored error |
| AvsClip.Clip.GetFrame | avisynth.py:692-704 | `_error` is reset first; a delivered frame is returned; an engine error is returned as a null pointer; a host exception stores its formatted text |
| AvsClip.Clip.GetError | avisynth.py:724-727 | the engine's message if there is one, else the stored `_error`, which is then cleared |
| AvsClip.FetchThenError | avisynth.py:692-727 | `get_frame` then `get_error` on a clip: the error is truthy exactly when the fetch did not deliver, an engine failure reports the engine's message, a delivered frame is returned, and `_error` ends cleared |
| AvsFrame.VideoFrameC.GetOffset | avisynth.py:795-799 | U and B give `offsetU`, V and R give `offsetV`, A gives `offsetA`, and any other selector gives `offset` |
| AvsFrame.OffsetGroups | avisynth.py:795-799 | Y and G share `offset`, U and B `offsetU`, V and R `offsetV`; the alignment flag reads `offset` |
| AvsVideoInfo.WrapUint32 | avisynth.py:623-633 | the `c_int`/`c_uint` image_type and fps fields keep 32 bits |
| AvsVideoInfo.VideoInfoC.BytesPerChannelSample | avisynth.py:583-594 | INT8 gives 1, INT16 2, INT24 3, INT32 4 and FLOAT 4; 0 exactly for any other sample type; 3 only for INT24 |
| AvsVideoInfo.VideoInfoC.AudioSamplesFromFramesAsWritten | avisynth.py:599-603 | as written: ZeroDivisionError exactly when there is audio, a nonzero denominator and a zero numerator |
| AvsVideoInfo.VideoInfoC.AudioSamplesFromFrames | avisynth.py:599-603 | corrected: 0 without audio or with a zero rate field; otherwise the floor of frames*rate*den/num |
| AvsVideoInfo.AudioSamplesZeroDenominator | avisynth.py:599-603 | a zero `fps_denominator` gives 0 |
| AvsVideoInfo.AudioSamplesCorrectionAgrees | avisynth.py:599-603 | wherever the code as written returns, the corrected helper returns the same number |
| AvsVideoInfo.AudioSamplesFaultWitness | avisynth.py:599-603 | a 44.1 kHz clip with the rate (0, 1) that `set_fps(0, d)` stores makes the code as written raise |
| AvsVideoInfo.FormatImplications | avisynth.py:488-552 | RGB24 and RGB32 imply RGB and interleaved; YUY2 implies YUV and interleaved; parity is known exactly when field-based and BFF or TFF |
| AvsVideoInfo.NamedColorspaces | avisynth.py:488-532 | BGR24 is RGB24 and BGR32 is RGB32; BGR48 and BGR64 are RGB but fail `is_rgb24` / `is_rgb32` on the sample-bits test; planar RGB is RGB and planar and passes the sample-bits test, but is not RGB24 because it lacks the interleaved bit that `CS_BGR24` carries; YUY2 is not planar; YV12 and Y8 are planar and not YUY2 |
| AvsVideoInfo.EuclidGcd | avisynth.py:637-640 | the `while y` loop returns the gcd of the two positive arguments |
| AvsVideoInfo.ReducedFraction | avisynth.py:635-645 | dividing by the gcd gives a coprime pair with the same ratio |
| AvsVideoInfo.OrSetsBits | avisynth.py:623-624 | `\|=` sets the property's bits and keeps the others |
| AvsVideoInfo.AndNotClearsBits | avisynth.py:626-627 | `&= ~` clears the property's bits and keeps the others |
| AvsVideoInfo.VideoInfo.constructor | avisynth.py:466-469 | the wrapper holds the given struct |
| AvsVideoInfo.VideoInfo.SetProperty | avisynth.py:623-624 | image_type gains the property's bits; nothing else changes |
| AvsVideoInfo.VideoInfo.ClearProperty | avisynth.py:626-627 | image_type loses the property's bits; nothing else changes |
| AvsVideoInfo.VideoInfo.SetFieldBased | avisynth.py:629-633 | `is_field_based()` afterwards equals the argument; only the field-based bit changes |
| AvsVideoInfo.VideoInfo.SetFps | avisynth.py:635-645 | (0, 1) if either argument is 0; otherwise the reduced, coprime fraction with the same ratio; nothing else changes |
| PyavsLayout.ClampFrame | pyavs.py:674-677 | the index is clamped into [0, Framecount-1]; an index in range is kept |
| PyavsLayout.ClampIdempotent | pyavs.py:674-677 | clamping twice is clamping once |
| PyavsLayout.Shr | pyavs.py:718-719 | `a >> s` is the floor of a / 2^s |
| PyavsLayout.ChromaBlockShared | pyavs.py:715-720 | every pixel of a 2^ws by 2^hs block reads the same chroma index |
| PyavsLayout.LumaIndexInjective | pyavs.py:715 | distinct pixels inside the pitch have distinct luma indices, and conversely |
| PyavsLayout.Yuy2Macropixel | pyavs.py:721-724 | the two pixels of a YUY2 macropixel read Y at bytes 0 and 2, and share U at byte 1 and V at byte 3 |
| PyavsLayout.BytesFromPixelsAsWritten | avisynth.py:568-569 | as written: returns bits_per_pixel whatever the pixel count |
| PyavsLayout.BytesFromPixels | avisynth.py:565-569 | corrected: pixels times the pixel's byte width, never negative |
| PyavsLayout.BytesFromPixelsLinear | avisynth.py:568-569 | n pixels take n times the bytes of one |
| PyavsLayout.RgbIndices | pyavs.py:731-739 | BGR: B at the base on line Height-1-y, then G and R above it; otherwise R at the base on line y, then G and B |
| PyavsLayout.RgbaIndicesAsWritten | pyavs.py:746-757 | as written: in non-BGR order, A is B+3, which is R+5 |
| PyavsLayout.RgbaIndices | pyavs.py:746-757 | corrected: the four channels are the four bytes after the base, A at base+3 in both orders |
| PyavsLayout.RgbaCorrectionAgrees | pyavs.py:746-757 | both agree on R, G and B, and on A in BGR order |
| PyavsLayout.BgrLinesBottomUp | pyavs.py:733-737 | BGR line y is stored where the non-BGR line Height-1-y is |
| PyavsLayout.RgbPixelsAdjacent | pyavs.py:731-739 | with the corrected byte width, neighbouring pixels are one pixel width apart |
| PyavsLayout.PixelIndexFaultWitness | pyavs.py:731-757 | as written, pixel 1 of RGB24 reads pixel 8, and the non-BGR RGBA alpha reads G of the next pixel |
| PyavsLayout.MatrixStandard | pyavs.py:645-649 | "auto" becomes "709" exactly when DisplayWidth > 1024 or DisplayHeight > 576, and "601" otherwise; any other standard is kept |
| PyavsLayout.SelectMatrix | pyavs.py:641-651 | a string is used as is; a list shorter than two raises IndexError; otherwise the prefix is "Rec" for "tv" or "2020", else "PC.", followed by the standard |
| PyavsLayout.MatrixChoices | pyavs.py:641-651 | the default ['auto', 'tv'] gives Rec709/Rec601 by size, 'pc' gives PC.709/PC.601, and 2020 is always Rec2020 |
| PyavsLayout.LongestLine | pyavs.py:574-578 | the maximum line length, reached by some line; 0 when there are no lines |
| PyavsLayout.ErrorClipGeometry | pyavs.py:571-581 | the loop gives width = longest line times fontSize / 2 and height = lines times fontSize + fontSize / 4 |
| PyavsLayout.ErrorLinesFit | pyavs.py:571-581 | every line of the message fits in the error clip's width at half a font size per character |
| PyavsLayout.AudioBits | pyavs.py:455-465 | `sample_type_dict.get(sample_type, 0)` is one of 0, 8, 16, 24, 32 |
| PyavsLayout.AudioBitsMatchBytes | pyavs.py:455-465 | Audiobits is 8 times `bytes_per_channel_sample` for every sample type, which pins `sample_type_dict` to 8, 16, 24, 32, 32 and the default 0 |
| Text.Split | pyavs.py:574 | `str.split(sep)`: at least one piece, and no piece holds the separator |
| Text.SplitCount | pyavs.py:574 | a split gives one more piece than the text has separators |
| Text.JoinSplit | pyavs.py:574 | joining the pieces of a split with the separator gives back the string |
| Text.SplitJoin | pyavs.py:574 | splitting a join of separator-free pieces gives back the pieces |
| Text.DecimalRoundTrip | pyavs.py:794-796 | `int(str(n))` is n for every natural number |
| Text.ParseIntRoundTrip | pyavs.py:794-796 | parsing the decimal text of any integer, negative ones included, gives back that integer |
| Y4m.ScaleSize | pyavs.py:787-798 | InvalidString exactly when the text does not start with x, * or / and a digit; ZeroDivisionError exactly for "/0…"; otherwise a floor division or a multiplication |
| Y4m.ScaleByDecimal | pyavs.py:787-798 | "/k", "xk" and "*k" (k in decimal, followed by anything but a digit) divide or multiply by k |
| Y4m.ResolveSize | pyavs.py:788-809 | None keeps the clip's size, a number is used as is, and a string goes through the scale parser |
| Y4m.Y4mColorspace | pyavs.py:814-818 | defined exactly for YV24, YV16, YV12, YV411 and Y8, giving 444, 422, 420, 411 and mono |
| Y4m.InterlaceChar | pyavs.py:810-813 | 'p' exactly when progressive, 'b' exactly when interlaced and BFF, and 't' otherwise |
| Y4m.ColorspaceField | pyavs.py:819-825 | BadColorspace exactly when no colourspace is given and the clip's is not in the table; a nonzero depth appends "p"+depth |
| Y4m.HeaderFieldsOf | pyavs.py:785-829 | errors come in the order width, height, colourspace; otherwise the fields hold the resolved sizes, the interlace char, the clip's rate, the sar, the colourspace and X |
| Y4m.HeaderTokens | pyavs.py:827-829 | seven space-separated tokens, or eight with X |
| Y4m.FormatHeader | pyavs.py:827-829 | the header ends with a newline |
| Y4m.Y4MHeader | pyavs.py:785-829 | fails exactly when the fields fail, with their error; otherwise it is the formatted header |
| Y4m.Tagged | pyavs.py:827-829 | a token carries its one-letter tag in front of its value |
| Y4m.ParseRate | pyavs.py:827-829 | a parsed rate prints back to the same text |
| Y4m.RateRoundTrip | pyavs.py:827-829 | the F field parses back to the numerator and denominator |
| Y4m.TokensRoundTrip | pyavs.py:827-829 | the tokens parse back to the fields |
| Y4m.HeaderRoundTrip | pyavs.py:827-829 | a header whose sar, colourspace and X hold no space or newline parses back to its fields |
| Y4m.DefaultHeader | pyavs.py:785-829 | a YV12 clip with default arguments gives W/H of the clip, A0:0 and C420 |
| Y4m.FrameHeader | pyavs.py:843-847 | empty exactly for `y4m_header=False`; "FRAME\n", or "FRAME X<tag>\n" for a string tag |
| PyavsClip.Abs | pyavs.py:891-893 | `abs` |
| PyavsClip.Zeros | pyavs.py:849 | `create_string_buffer` starts zero-filled |
| PyavsClip.Blit | avisynth.py:424-425 | `bit_blt` of `height` rows of `rowSize` bytes into a packed buffer |
| PyavsClip.BlitRowMajor | pyavs.py:858-861 | byte x of output row y is byte y*pitch + x of the source |
| PyavsClip.Flipped | pyavs.py:1105-1116 | the DrawFrame bitmap has h rows of w*3 bytes |
| PyavsClip.FlippedRow | pyavs.py:1107-1116 | output row i, byte k, is source byte (h-1-i)*pitch + k |
| PyavsClip.AvsClipBase.constructor | pyavs.py:311-317 | no current frame (-1) and no pointers taken |
| PyavsClip.AvsClipBase.GetFrameAsWritten | pyavs.py:670-706 | as written: a cached index returns True without fetching; a failed fetch keeps `current_frame`, even when the source pointers were already replaced |
| PyavsClip.AvsClipBase.GetFrame | pyavs.py:670-706 | corrected: the same results, and `current_frame` names a frame only while the pointers hold it; it is the clamped index on success and -1 on failure |
| PyavsClip.AvsClipBase.FetchSource | pyavs.py:679-691 | succeeds exactly when the clip delivers; the pitches and read pointers then hold that frame |
| PyavsClip.AvsClipBase.FetchDisplay | pyavs.py:693-701 | succeeds exactly when there is no display clip or it delivers; the display pitch and bits then hold that frame |
| PyavsClip.AvsClipBase.StaleCacheAsWritten | pyavs.py:670-706 | a failed display fetch after a successful source fetch breaks the cache invariant |
| PyavsClip.StaleCacheWitness | pyavs.py:670-706 | as written, after requests for 5 and then 7 where only the display clip fails, frame 5 is claimed while the pitch is frame 7's |
| PyavsClip.CorrectedCacheWitness | pyavs.py:670-706 | with the cache invalidated before fetching, the same requests leave no frame claimed |
| PyavsClip.AvsClipBase.GetPixelYUV | pyavs.py:713-727 | planar: Y at x + y*pitch, chroma at the subsampled index; Y8: (Y, -1, -1); YUY2: the macropixel bytes; otherwise (-1, -1, -1) |
| PyavsClip.AvsClipBase.ChromaSharedInBlock | pyavs.py:718-720 | every pixel of a chroma block reports the same U and V |
| PyavsClip.AvsClipBase.Yuy2PairShared | pyavs.py:721-724 | the two pixels of a YUY2 pair report the same U and V |
| PyavsClip.AvsClipBase.GetPixelRGB | pyavs.py:729-742 | RGB: the three bytes at `RgbIndices`, with the corrected byte width of Findings row 2 as the pixel stride; otherwise (-1, -1, -1) |
| PyavsClip.AvsClipBase.GetPixelRGBA | pyavs.py:744-759 | RGB32: the four bytes at the corrected `RgbaIndices`, with the corrected byte width of Findings row 2 as the pixel stride; otherwise four -1s |
| PyavsClip.AvsClipBase.RgbaExtendsRgb | pyavs.py:729-759 | for RGB32, the first three RGBA channels are the RGB reading |
| PyavsClip.AvsClipBase.BgrReadsBottomUp | pyavs.py:731-739 | a BGR read of line y is the non-BGR read of line Height-1-y with R and B swapped |
| PyavsClip.AvsClipBase.PlanesDataPrefix | pyavs.py:854-862 | the planes written before plane i lie at the start of the buffer's data |
| PyavsClip.AvsClipBase.RawDataPlanar | pyavs.py:853-862 | planar data is the Y plane, then U, then V |
| PyavsClip.AvsClipBase.BitBlt | pyavs.py:860-861 | the blit lands at `write_addr`, and the rest of the buffer is kept |
| PyavsClip.AvsClipBase.CopyPlane | pyavs.py:854-862 | one turn of the plane loop appends plane i, and `write_addr` moves past it |
| PyavsClip.AvsClipBase.FillBuffer | pyavs.py:853-872 | the buffer holds the frame data at its start and zeros after |
| PyavsClip.AvsClipBase.RawFrame | pyavs.py:832-873 | None when uninitialised or the fetch fails; otherwise the FRAME header and a fresh (Width*Height*bpp >> 3)-byte buffer holding Y, U, V back to back, or the single interleaved plane, followed by zeros; the index is clamped |
| PyavsClip.AvsClipBase.ScannedIsCrop | pyavs.py:887-905 | a finished scan of one side yields that side's crop value |
| PyavsClip.AvsClipBase.LineStarted | pyavs.py:888-889 | a scan line starts with nothing of it examined |
| PyavsClip.AvsClipBase.LineFinished | pyavs.py:889-905 | a completed line extends the scanned prefix by one line |
| PyavsClip.AvsClipBase.ScanPixel | pyavs.py:890-903 | one inner step records the first differing line for its side, once |
| PyavsClip.AvsClipBase.ScanLine | pyavs.py:889-904 | the inner loop, with its early break, leaves both sides scanned one line further |
| PyavsClip.AvsClipBase.ScanFrame | pyavs.py:887-927 | the two passes give all four sides their crop values against the top-left and bottom-right pixels |
| PyavsClip.AvsClipBase.ScanPair | pyavs.py:887-927 | each pass gives both of its sides their crop values |
| PyavsClip.AvsClipBase.AutocropFrame | pyavs.py:875-930 | fetches through `_GetFrame` as written, so a request for the cached index scans the pointers held, unchanged, and a fresh fetch scans frame ClampFrame(frame); after a fresh fetch the cache names the clamped frame and holds its source and display pointers when both clips deliver it, and keeps the old `current_frame` when either fails; None when `_GetFrame` fails; TypeError if no frame pointer was ever taken; otherwise top is the first row holding a pixel that differs from the top-left pixel by more than tol, bottom the first i whose row h-i differs from the bottom-right pixel, and left and right likewise for columns; each is below the height or width when such a line exists, and 0 otherwise |
| PyavsClip.AvsClipBase.DrawFrame | pyavs.py:1097-1118 | fetches through `_GetFrame` as written, so a request for the cached index draws from the display pointer held, unchanged, and a fresh fetch from frame ClampFrame(frame); after a fresh fetch the cache names the clamped frame and holds its source and display pointers when both clips deliver it, and keeps the old `current_frame` when either fails; None when `_GetFrame` fails or there is no dc; AttributeError without display bits; otherwise a fresh h*w*3 buffer whose row i is display row h-1-i |
| PyavsClip.AvsClipBase.CopyFlipped | pyavs.py:1107-1116 | the `for i in range(h)` loop, with read_addr starting at (h-1)*pitch and stepping back while write_addr steps forward, yields `Flipped` |
| PyavsClip.AvsClipBase.CopyRow | pyavs.py:1112-1114 | `memmove` of one row of w*3 bytes; the earlier rows are kept |

## Left out

- Library loading, `argtypes`/`restype` declarations and the x86_64 cffi-to-ctypes pointer casts (`_cffi2ctypes_ptr`). These are FFI plumbing, and a pointer is modelled as a function from index to byte.
- Native reference counting (`avs_copy_value`, `avs_release_*`, `avs_take_clip`) and `__del__`. The engine and the garbage collector own these. `release` is modelled only by its effect on the Python-side struct.
- After a frame is replaced, the old frame's pointers may dangle. The model keeps every fetched frame readable.
- `weakref.WeakKeyDictionary`: modelled as a `retained` sequence field on each environment. Entries are never collected.
- Floating point: `set_float` is modelled on the 32-bit pattern the union stores, with no rounding from a Python float. `Framerate` and `IsAudioFloat` are left out.
- Unicode: strings are sequences of characters. Encoding to the filesystem encoding is not modelled, and the header characters of `RawFrame` are kept as text next to the byte buffer rather than copied into it.
- Native format predicates and queries are uninterpreted parameters of the model: `is_yv24`…`is_y8`, `is_color_space`, `bits_per_pixel`, the plane subsamplings, `get_pitch`, `get_row_size`, `get_height` and `get_read_ptr`. The clip's `Colorspace` name is a string parameter, because `__init__` computes it from those predicates.
- The methods that are broken as written: `bytes_per_audio_sample`, `frames_from_audio_samples`, `internal_fake_num_components`, `subframe_planar`, `is_same_colorspace` and `add_function`. The AVS+ probes are also left out.
- `set_var`, `set_global_var` and the other environment calls do not belong to the modelled core.
- DrawDib/VFW, `BITMAPINFOHEADER`, `wx.BitmapFromBuffer` and `dc.DrawBitmap` are GUI and OS I/O. `DrawFrame` returns the buffer it would hand to `BitmapFromBuffer`, and its `offset` argument (only used for drawing) is not modelled.
- The wx `AvsClip` subclass (pyavs.py:1079-1118) has no `_GetFrame` of its own. Its `DrawFrame` is modelled as `AvsClipBase.DrawFrame`, over `_GetFrame` as written (`GetFrameAsWritten`). The Windows subclass's `_GetFrame` override (pyavs.py:1039-1043) only adds setting `bmih.biWidth` in the DrawDib bitmap header, which is GUI state and is left out with the rest of DrawDib.
- `CreateErrorClip` and `CreateDisplayClip` build script text that the engine evaluates (`BlankClip`, `Subtitle`, `ConvertToRGB`, `BGR2RGB`). Only the width, height and matrix arithmetic is modelled. The bit-depth and `SwapUV` branches and `_ConvertToRGB` are engine script.
- The commented-out AVS+ colourspace table is a string literal, not code.
- `CreateDisplayClip` copies the matrix list before editing it. With value semantics the caller's list cannot change, so there is nothing to prove.
- `set_fps`: the `c_uint` fields are modelled as naturals, and negative arguments are not modelled.
- `set_cdata`: aliasing of the adopted struct with its previous owner is not modelled; the struct is copied as a value.
- An `AVS_Value` given to `set_value` is taken as a snapshot of its struct.
- Iterables without a length: `set_value` sends any `collections.Iterable` to `set_array`, and for a generator or another unsized iterable `len(values)` (avisynth.py:922) raises TypeError. The model's `PyList` stands only for sized iterables such as lists, tuples and dicts (a dict stores its keys), so it does not express that TypeError.
- `AvsClip.Clip.GetError`: the engine's message is assumed non-empty whenever the engine reports an error, so that `get_error` is truthy after a failed fetch.
- `PyavsClip.AvsClipBase.RawFrame` requires that the copied planes fit the `Width*Height*bpp >> 3` buffer. Otherwise the native `bit_blt` writes past the buffer, a memory fault the model does not describe. A row size or height that is not positive counts as an empty plane, whereas the source would add a negative `width*height` to `write_addr`.
- `PyavsClip.AvsClipBase.GetPixelRGB` strides by the corrected byte width `BytesFromPixels(bpp, 1)`, that is bpp >> 3. The source strides by `bytes_from_pixels(1)`, which returns `bits_per_pixel` (Findings row 2), so the model does not reproduce the as-written reads of pixels other than x = 0.
- `PyavsClip.AvsClipBase.GetPixelRGBA` strides by the same corrected byte width, and also puts non-BGR alpha at the corrected R + 3 (Findings rows 2 and 4).
- `PyavsClip.AvsClipBase.GetPixelYUV`, `GetPixelRGB` and `GetPixelRGBA` require the read pointers to be set. Called before any frame is fetched, the source raises TypeError by subscripting `None`. `AutocropFrame` models that error path.
- The `interlaced` and `depth` arguments of `Y4MHeader` are taken as a boolean and an optional integer. Python would accept any truthy object.

## Findings

| source | as written | input that shows it | evidently intended | confidence | as-written member | corrected member |
|---|---|---|---|---|---|---|
| avisynth.py:599-603 | guards `fps_denominator == 0` but divides by `fps_numerator` | audio at 44100 Hz with fps (0, 1), the value `set_fps(0, d)` stores: ZeroDivisionError | guard the divisor and return 0 | not executed | AvsVideoInfo.AudioSamplesFaultWitness | AvsVideoInfo.VideoInfoC.AudioSamplesFromFrames |
| avisynth.py:568-569 | `bytes_from_pixels` returns `bits_per_pixel()` and ignores `pixels`; `GetPixelRGB`/`GetPixelRGBA` (pyavs.py:731, 746) use it as a byte width | RGB24 pixel x=1 is read at byte 24, i.e. pixel 8 | pixels * (bits_per_pixel >> 3) | not executed | PyavsLayout.PixelIndexFaultWitness | PyavsLayout.BytesFromPixels |
| avisynth.py:902-911 | `set_error` stores tag 's' | `set_error("x")` then `as_error()` raises "Not an error" | tag 'e' | not executed | AvsScript.Value.SetError | AvsScript.Value.SetErrorIntended |
| pyavs.py:753-756 | non-BGR `GetPixelRGBA` sets indexA = indexB + 3, i.e. R + 5 | RGBA at x reads pixel x+1's G byte as alpha | indexA = indexR + 3 | not executed | PyavsLayout.PixelIndexFaultWitness | PyavsLayout.RgbaIndices |
| pyavs.py:670-706 | when the display fetch fails, `current_frame` still names the old frame while `pitch`, `ptrY`… already hold the new one | show frame 5, then request 7 where only the display clip fails, then request 5: cached True with frame 7's pointers | reset `current_frame` before fetching | not executed | PyavsClip.StaleCacheWitness | PyavsClip.AvsClipBase.GetFrame |
