/** `AVS_VideoFrame` of avisynth.py: the C struct `AVS_VideoFrame_C`, the
    plane-to-offset mapping `get_offset` reads out of it, and the native
    per-plane queries (`get_pitch`, `get_row_size`, `get_height`,
    `get_read_ptr`) as oracles of a frame handle. */
module AvsFrame {

  import opened AvsConstants

  /** One byte of frame memory, as a ctypes `c_ubyte` pointer reads it. */
  newtype byte = x: int | 0 <= x < 256

  /** The integer fields of `AVS_VideoFrame_C` (the `vfb` pointer is left out). */
  datatype VideoFrameC = VideoFrameC(
    refcount: int,
    offset: int,
    pitch: int,
    rowSize: int,
    height: int,
    offsetU: int,
    offsetV: int,
    pitchUV: int,
    rowSizeUV: int,
    heightUV: int,
    offsetA: int,
    pitchA: int,
    rowSizeA: int)
  {
    /** `get_offset`: U and B share the second offset, V and R the third, A has
        its own, and every other selector (Y, G, anything) reads the first. */
    function GetOffset(plane: bv32): (r: int)
      ensures plane == PLANAR_U || plane == PLANAR_B ==> r == offsetU
      ensures plane != PLANAR_U && plane != PLANAR_B && (plane == PLANAR_V || plane == PLANAR_R) ==> r == offsetV
      ensures plane == PLANAR_A ==> r == offsetA
      ensures plane !in {PLANAR_U, PLANAR_B, PLANAR_V, PLANAR_R, PLANAR_A} ==> r == offset
    {
      if plane == PLANAR_U || plane == PLANAR_B then offsetU
      else if plane == PLANAR_V || plane == PLANAR_R then offsetV
      else if plane == PLANAR_A then offsetA
      else offset
    }
  }

  /** The selectors are distinct bits, so the four groups do not overlap: the
      offset a plane reads is determined by its group alone. */
  lemma OffsetGroups(c: VideoFrameC)
    ensures c.GetOffset(PLANAR_Y) == c.GetOffset(PLANAR_G) == c.offset
    ensures c.GetOffset(PLANAR_U) == c.GetOffset(PLANAR_B) == c.offsetU
    ensures c.GetOffset(PLANAR_V) == c.GetOffset(PLANAR_R) == c.offsetV
    ensures c.GetOffset(PLANAR_A) == c.offsetA
    ensures c.GetOffset(PLANAR_ALIGNED) == c.offset
  {
  }

  /** A frame handle: its struct plus the native per-plane queries. */
  datatype Frame = Frame(
    c: VideoFrameC,
    pitchOf: bv32 -> int,         // avs_get_pitch_p
    rowSizeOf: bv32 -> int,       // avs_get_row_size_p
    heightOf: bv32 -> int,        // avs_get_height_p
    readPtr: bv32 -> int -> byte) // avs_get_read_ptr_p, indexed like a c_ubyte pointer

  /** What `avs_get_frame` hands back: a frame or a NULL pointer. */
  datatype FramePtr = Null | Ptr(frame: Frame)
}
