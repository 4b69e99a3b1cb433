/** The constants of `class avs` in avisynth.py: audio sample formats, plane
    selectors, colourspace property bits and the named colourspaces built from
    them, and the image-type (field order) bits. Pixel and image types are
    32-bit masks, so they are `bv32` here. */
module AvsConstants {

  // Audio sample formats (the `sample_type` field is a plain int)
  const SAMPLE_INT8: int := 1
  const SAMPLE_INT16: int := 2
  const SAMPLE_INT24: int := 4
  const SAMPLE_INT32: int := 8
  const SAMPLE_FLOAT: int := 16

  // Plane selectors
  const PLANAR_Y: bv32 := 1 << 0
  const PLANAR_U: bv32 := 1 << 1
  const PLANAR_V: bv32 := 1 << 2
  const PLANAR_ALIGNED: bv32 := 1 << 3
  const PLANAR_A: bv32 := 1 << 4
  const PLANAR_R: bv32 := 1 << 5
  const PLANAR_G: bv32 := 1 << 6
  const PLANAR_B: bv32 := 1 << 7

  // Colourspace property bits
  const CS_YUVA: bv32 := 1 << 27
  const CS_BGR: bv32 := 1 << 28
  const CS_YUV: bv32 := 1 << 29
  const CS_INTERLEAVED: bv32 := 1 << 30
  const CS_PLANAR: bv32 := 1 << 31

  const CS_SHIFT_SUB_WIDTH: bv32 := 0
  const CS_SHIFT_SUB_HEIGHT: bv32 := 8
  const CS_SHIFT_SAMPLE_BITS: bv32 := 16

  const CS_SUB_WIDTH_1: bv32 := 3
  const CS_SUB_WIDTH_2: bv32 := 0
  const CS_SUB_WIDTH_4: bv32 := 1
  const CS_VPLANEFIRST: bv32 := 1 << 3
  const CS_UPLANEFIRST: bv32 := 1 << 4
  const CS_SUB_HEIGHT_1: bv32 := 3 << 8
  const CS_SUB_HEIGHT_2: bv32 := 0 << 8
  const CS_SUB_HEIGHT_4: bv32 := 1 << 8

  const CS_SAMPLE_BITS_MASK: bv32 := 7 << 16
  const CS_SAMPLE_BITS_8: bv32 := 0 << 16
  const CS_SAMPLE_BITS_10: bv32 := 5 << 16
  const CS_SAMPLE_BITS_12: bv32 := 6 << 16
  const CS_SAMPLE_BITS_14: bv32 := 7 << 16
  const CS_SAMPLE_BITS_16: bv32 := 1 << 16
  const CS_SAMPLE_BITS_32: bv32 := 2 << 16

  const CS_RGB_TYPE: bv32 := 1 << 0
  const CS_RGBA_TYPE: bv32 := 1 << 1

  const CS_GENERIC_YUV420: bv32 := CS_PLANAR | CS_YUV | CS_VPLANEFIRST | CS_SUB_HEIGHT_2 | CS_SUB_WIDTH_2
  const CS_GENERIC_YUV422: bv32 := CS_PLANAR | CS_YUV | CS_VPLANEFIRST | CS_SUB_HEIGHT_1 | CS_SUB_WIDTH_2
  const CS_GENERIC_YUV444: bv32 := CS_PLANAR | CS_YUV | CS_VPLANEFIRST | CS_SUB_HEIGHT_1 | CS_SUB_WIDTH_1
  const CS_GENERIC_Y: bv32 := CS_PLANAR | CS_INTERLEAVED | CS_YUV
  const CS_GENERIC_RGBP: bv32 := CS_PLANAR | CS_BGR | CS_RGB_TYPE
  const CS_GENERIC_RGBAP: bv32 := CS_PLANAR | CS_BGR | CS_RGBA_TYPE

  // Named colourspaces
  const CS_UNKNOWN: bv32 := 0
  const CS_BGR24: bv32 := CS_RGB_TYPE | CS_BGR | CS_INTERLEAVED
  const CS_BGR32: bv32 := CS_RGBA_TYPE | CS_BGR | CS_INTERLEAVED
  const CS_YUY2: bv32 := (1 << 2) | CS_YUV | CS_INTERLEAVED
  const CS_RAW32: bv32 := (1 << 5) | CS_INTERLEAVED
  const CS_YV24: bv32 := CS_GENERIC_YUV444 | CS_SAMPLE_BITS_8
  const CS_YV16: bv32 := CS_GENERIC_YUV422 | CS_SAMPLE_BITS_8
  const CS_YV12: bv32 := CS_GENERIC_YUV420 | CS_SAMPLE_BITS_8
  const CS_I420: bv32 := CS_PLANAR | CS_YUV | CS_SAMPLE_BITS_8 | CS_UPLANEFIRST | CS_SUB_HEIGHT_2 | CS_SUB_WIDTH_2
  const CS_YV411: bv32 := CS_PLANAR | CS_YUV | CS_SAMPLE_BITS_8 | CS_VPLANEFIRST | CS_SUB_HEIGHT_1 | CS_SUB_WIDTH_4
  const CS_YUV9: bv32 := CS_PLANAR | CS_YUV | CS_SAMPLE_BITS_8 | CS_VPLANEFIRST | CS_SUB_HEIGHT_4 | CS_SUB_WIDTH_4
  const CS_Y8: bv32 := CS_GENERIC_Y | CS_SAMPLE_BITS_8
  const CS_YUV420P16: bv32 := CS_GENERIC_YUV420 | CS_SAMPLE_BITS_16
  const CS_Y16: bv32 := CS_GENERIC_Y | CS_SAMPLE_BITS_16
  const CS_BGR48: bv32 := CS_RGB_TYPE | CS_BGR | CS_INTERLEAVED | CS_SAMPLE_BITS_16
  const CS_BGR64: bv32 := CS_RGBA_TYPE | CS_BGR | CS_INTERLEAVED | CS_SAMPLE_BITS_16
  const CS_RGBP: bv32 := CS_GENERIC_RGBP | CS_SAMPLE_BITS_8
  const CS_RGBAP: bv32 := CS_GENERIC_RGBAP | CS_SAMPLE_BITS_8

  // Image type (field order) bits
  const IT_BFF: bv32 := 1 << 0
  const IT_TFF: bv32 := 1 << 1
  const IT_FIELDBASED: bv32 := 1 << 2
}
