/** The pure arithmetic of pyavs.py: the frame-number clamp, where a pixel's
    samples sit in frame memory for each layout, the conversion-matrix name
    chosen for display, the size of the error clip, and the audio bit depth
    table. */
module PyavsLayout {

  import opened Wrappers
  import opened Text
  import opened AvsVideoInfo
  import opened AvsConstants

  // ---------------------------------------------------------------------
  // Frame numbers
  // ---------------------------------------------------------------------

  /** The clamp of `_GetFrame` and `RawFrame`: a negative number becomes 0,
      then a number past the end becomes the last frame (-1 for an empty clip). */
  function ClampFrame(frame: int, framecount: int): (r: int)
    ensures framecount > 0 ==> 0 <= r < framecount
    ensures 0 <= frame < framecount ==> r == frame
    ensures frame < 0 && framecount > 0 ==> r == 0
    ensures frame >= framecount || framecount <= 0 ==> r == framecount - 1
  {
    var f := if frame < 0 then 0 else frame;
    if f >= framecount then framecount - 1 else f
  }

  /** Clamping a clamped number changes nothing. */
  lemma ClampIdempotent(frame: int, framecount: int)
    ensures ClampFrame(ClampFrame(frame, framecount), framecount) == ClampFrame(frame, framecount)
  {
  }

  // ---------------------------------------------------------------------
  // Python 2 integer shifts
  // ---------------------------------------------------------------------

  function Pow2(s: nat): (r: nat)
    ensures r >= 1
  {
    if s == 0 then 1 else 2 * Pow2(s - 1)
  }

  /** `a >> s` on a Python integer: the floor of a / 2^s, negatives included. */
  function Shr(a: int, s: nat): (r: int)
    ensures r * Pow2(s) <= a < r * Pow2(s) + Pow2(s)
  {
    a / Pow2(s)
  }

  // ---------------------------------------------------------------------
  // Sample positions: planar YUV (GetPixelYUV)
  // ---------------------------------------------------------------------

  /** Index of the luma sample of (x, y) in the Y plane. */
  function PlanarLumaIndex(x: int, y: int, pitch: int): int {
    x + y * pitch
  }

  /** Index of the chroma samples of (x, y) in the U and V planes: the
      coordinates are first shifted down by the subsampling exponents. */
  function PlanarChromaIndex(x: int, y: int, ws: nat, hs: nat, pitchUV: int): int {
    Shr(x, ws) + Shr(y, hs) * pitchUV
  }

  /** Every pixel of a 2^ws by 2^hs block reads the chroma sample of that block. */
  lemma ChromaBlockShared(cx: int, cy: int, dx: int, dy: int, ws: nat, hs: nat, pitchUV: int)
    requires 0 <= dx < Pow2(ws) && 0 <= dy < Pow2(hs)
    ensures PlanarChromaIndex(cx * Pow2(ws) + dx, cy * Pow2(hs) + dy, ws, hs, pitchUV) == cx + cy * pitchUV
  {
    DivModUnique(Pow2(ws), cx * Pow2(ws) + dx, cx, dx);
    DivModUnique(Pow2(hs), cy * Pow2(hs) + dy, cy, dy);
  }

  /** Inside a line narrower than the pitch, distinct pixels never share a
      sample, and the index gives the pixel back. */
  lemma LumaIndexInjective(x: int, y: int, x': int, y': int, pitch: int)
    requires 0 <= x < pitch && 0 <= x' < pitch
    ensures PlanarLumaIndex(x, y, pitch) == PlanarLumaIndex(x', y', pitch) <==> x == x' && y == y'
  {
    var i := PlanarLumaIndex(x, y, pitch);
    var i' := PlanarLumaIndex(x', y', pitch);
    if i == i' {
      DivModUnique(pitch, i, y, x);
      DivModUnique(pitch, i', y', x');
    }
  }

  // ---------------------------------------------------------------------
  // Sample positions: packed YUY2 (GetPixelYUV)
  // ---------------------------------------------------------------------

  /** Indices of the Y, U and V bytes of (x, y) in a YUY2 line. */
  function Yuy2Indices(x: int, y: int, pitch: int): (int, int, int) {
    (x * 2 + y * pitch, 4 * (x / 2) + 1 + y * pitch, 4 * (x / 2) + 3 + y * pitch)
  }

  /** Two neighbouring pixels 2m and 2m+1 form one Y0 U Y1 V macropixel: four
      consecutive bytes, with U and V shared. */
  lemma Yuy2Macropixel(m: int, y: int, pitch: int)
    ensures var base := 4 * m + y * pitch;
      Yuy2Indices(2 * m, y, pitch) == (base, base + 1, base + 3) &&
      Yuy2Indices(2 * m + 1, y, pitch) == (base + 2, base + 1, base + 3)
  {
  }

  // ---------------------------------------------------------------------
  // Sample positions: interleaved RGB (GetPixelRGB, GetPixelRGBA)
  // ---------------------------------------------------------------------

  /** `bytes_from_pixels` as written: it ignores `pixels` and returns the bit
      count `avs_bits_per_pixel`. */
  function BytesFromPixelsAsWritten(bitsPerPixel: int, pixels: int): (r: int)
    ensures r == bitsPerPixel
  {
    bitsPerPixel
  }

  /** `bytes_from_pixels` as `avs_bytes_from_pixels` defines it: whole bytes of
      `pixels` interleaved pixels. */
  function BytesFromPixels(bitsPerPixel: int, pixels: int): (r: int)
    ensures bitsPerPixel >= 0 && pixels >= 0 ==> r >= 0
    ensures r == pixels * Shr(bitsPerPixel, 3)
  {
    pixels * Shr(bitsPerPixel, 3)
  }

  /** A byte count for any number of pixels is that many single-pixel counts. */
  lemma BytesFromPixelsLinear(bitsPerPixel: int, pixels: nat)
    ensures BytesFromPixels(bitsPerPixel, pixels) == pixels * BytesFromPixels(bitsPerPixel, 1)
  {
  }

  /** Base index (first byte) of pixel (x, y) in an interleaved frame: BGR data
      is stored bottom line first, so line y is memory line height-1-y. */
  function RgbBase(x: int, y: int, bytes: int, height: int, pitch: int, bgr: bool): int {
    if bgr then x * bytes + (height - 1 - y) * pitch else x * bytes + y * pitch
  }

  /** Indices (R, G, B) read by `GetPixelRGB`: B, G, R upward from the base
      in BGR order, R, G, B upward otherwise. */
  function RgbIndices(x: int, y: int, bytes: int, height: int, pitch: int, bgr: bool): (r: (int, int, int))
    ensures bgr ==> r.2 == RgbBase(x, y, bytes, height, pitch, bgr) && r.1 == r.2 + 1 && r.0 == r.2 + 2
    ensures !bgr ==> r.0 == RgbBase(x, y, bytes, height, pitch, bgr) && r.1 == r.0 + 1 && r.2 == r.0 + 2
  {
    var base := RgbBase(x, y, bytes, height, pitch, bgr);
    if bgr then (base + 2, base + 1, base) else (base, base + 1, base + 2)
  }

  /** Indices (R, G, B, A) read by `GetPixelRGBA` as written: in RGB order
      the alpha index is taken three bytes past B, five past the base. */
  function RgbaIndicesAsWritten(x: int, y: int, bytes: int, height: int, pitch: int, bgr: bool): (r: (int, int, int, int))
    ensures var base := RgbBase(x, y, bytes, height, pitch, bgr);
      r.3 == base + (if bgr then 3 else 5)
  {
    var base := RgbBase(x, y, bytes, height, pitch, bgr);
    if bgr then (base + 2, base + 1, base, base + 3)
    else (base, base + 1, base + 2, base + 2 + 3)
  }

  /** Indices (R, G, B, A) of a four-byte pixel: alpha is the fourth byte. */
  function RgbaIndices(x: int, y: int, bytes: int, height: int, pitch: int, bgr: bool): (r: (int, int, int, int))
    ensures var base := RgbBase(x, y, bytes, height, pitch, bgr);
      r.3 == base + 3 &&
      (bgr ==> r.2 == base && r.1 == base + 1 && r.0 == base + 2) &&
      (!bgr ==> r.0 == base && r.1 == base + 1 && r.2 == base + 2)
  {
    var base := RgbBase(x, y, bytes, height, pitch, bgr);
    if bgr then (base + 2, base + 1, base, base + 3) else (base, base + 1, base + 2, base + 3)
  }

  /** The colour indices of the two element orders agree; only alpha differs. */
  lemma RgbaCorrectionAgrees(x: int, y: int, bytes: int, height: int, pitch: int, bgr: bool)
    ensures var w := RgbaIndicesAsWritten(x, y, bytes, height, pitch, bgr);
      var c := RgbaIndices(x, y, bytes, height, pitch, bgr);
      (w.0, w.1, w.2) == (c.0, c.1, c.2) && (w.3 == c.3 <==> bgr)
  {
  }

  /** Stored bottom-up: line y of a BGR frame is the memory line that an RGB
      read of line height-1-y finds. */
  lemma BgrLinesBottomUp(x: int, y: int, bytes: int, height: int, pitch: int)
    ensures RgbBase(x, y, bytes, height, pitch, true) == RgbBase(x, height - 1 - y, bytes, height, pitch, false)
  {
  }

  /** With the intended byte count, the samples of pixel x lie in its own
      `bytes` bytes, so neighbouring pixels are exactly one pixel apart. */
  lemma RgbPixelsAdjacent(x: int, y: int, bitsPerPixel: int, height: int, pitch: int, bgr: bool)
    ensures var bytes := BytesFromPixels(bitsPerPixel, 1);
      RgbBase(x + 1, y, bytes, height, pitch, bgr) == RgbBase(x, y, bytes, height, pitch, bgr) + Shr(bitsPerPixel, 3)
  {
  }

  /** What reading with the bit count as byte count does: in an RGB24 frame
      pixel 1 of a line is read from the bytes of pixel 8, and in RGBA order
      the alpha of pixel x is the green byte of pixel x+1. */
  lemma PixelIndexFaultWitness(y: int, height: int, pitch: int)
    ensures BytesFromPixelsAsWritten(24, 1) == 24 && BytesFromPixels(24, 1) == 3
    ensures RgbBase(1, y, BytesFromPixelsAsWritten(24, 1), height, pitch, true) ==
            RgbBase(8, y, BytesFromPixels(24, 1), height, pitch, true)
    ensures forall x :: RgbaIndicesAsWritten(x, y, 4, height, pitch, false).3 ==
                        RgbaIndices(x + 1, y, 4, height, pitch, false).1
  {
    assert Shr(24, 3) == 3 by { DivModUnique(Pow2(3), 24, 3, 0); }
  }

  // ---------------------------------------------------------------------
  // Display matrix (CreateDisplayClip)
  // ---------------------------------------------------------------------

  /** The `matrix` argument: a ready-made name, or a [standard, range] list. */
  datatype MatrixArg = MatrixName(name: string) | MatrixList(items: seq<string>)

  /** The standard a [standard, range] list names: 'auto' is Rec.709 for a
      display larger than 1024x576 and Rec.601 otherwise. */
  function MatrixStandard(standard: string, displayWidth: int, displayHeight: int): (r: string)
    ensures standard != "auto" ==> r == standard
    ensures standard == "auto" ==> (r == "709" <==> displayWidth > 1024 || displayHeight > 576)
    ensures standard == "auto" ==> (r == "601" <==> !(displayWidth > 1024 || displayHeight > 576))
  {
    if standard == "auto" then
      if displayWidth > 1024 || displayHeight > 576 then "709" else "601"
    else standard
  }

  /** The matrix name passed to `ConvertToRGB24`; a list shorter than two
      elements raises IndexError. The caller's list is copied, not updated. */
  function SelectMatrix(m: MatrixArg, displayWidth: int, displayHeight: int): (r: Result<string>)
    ensures m.MatrixName? ==> r == Ok(m.name)
    ensures m.MatrixList? && |m.items| < 2 ==> r == Err(IndexError)
    ensures m.MatrixList? && |m.items| >= 2 ==>
              var standard := MatrixStandard(m.items[0], displayWidth, displayHeight);
              var tv := m.items[1] == "tv" || standard == "2020";
              r == Ok((if tv then "Rec" else "PC.") + standard)
  {
    match m
    case MatrixName(name) => Ok(name)
    case MatrixList(items) =>
      if |items| < 2 then Err(IndexError)
      else
        var standard := MatrixStandard(items[0], displayWidth, displayHeight);
        var range := if items[1] == "tv" || standard == "2020" then "Rec" else "PC.";
        Ok(range + standard)
  }

  /** The default ['auto', 'tv'] picks Rec601 up to 1024x576 and Rec709 above;
      'pc' range gives the PC. names; Rec.2020 always uses the TV range. */
  lemma MatrixChoices(w: int, h: int, range: string)
    ensures var hd := w > 1024 || h > 576;
      SelectMatrix(MatrixList(["auto", "tv"]), w, h) == Ok(if hd then "Rec709" else "Rec601")
    ensures var hd := w > 1024 || h > 576;
      SelectMatrix(MatrixList(["auto", "pc"]), w, h) == Ok(if hd then "PC.709" else "PC.601")
    ensures SelectMatrix(MatrixList(["2020", range]), w, h) == Ok("Rec2020")
  {
    assert "709" != "2020" && "601" != "2020" && "pc" != "tv";
    assert "Rec" + "709" == "Rec709" && "Rec" + "601" == "Rec601";
    assert "PC." + "709" == "PC.709" && "PC." + "601" == "PC.601";
    assert "Rec" + "2020" == "Rec2020";
  }

  // ---------------------------------------------------------------------
  // Error clip size (CreateErrorClip)
  // ---------------------------------------------------------------------

  /** The length of the longest line (0 when there is none). */
  function LongestLine(lines: seq<string>): (r: nat)
    ensures forall k :: 0 <= k < |lines| ==> |lines[k]| <= r
    ensures |lines| > 0 ==> exists k :: 0 <= k < |lines| && |lines[k]| == r
    ensures |lines| == 0 ==> r == 0
    decreases |lines|
  {
    if |lines| == 0 then 0
    else
      var rest := LongestLine(lines[..|lines| - 1]);
      var last := |lines[|lines| - 1]|;
      if last > rest then last else rest
  }

  /** The size `CreateErrorClip` gives the blank clip: one line of `fontSize`
      pixels per line of the message, plus a quarter line, and half a font
      size per character of the longest line (floor division). */
  method ErrorClipGeometry(err: string, fontSize: int) returns (eWidth: int, eHeight: int)
    ensures var lines := Split(err, '\n');
      eWidth == LongestLine(lines) * fontSize / 2 &&
      eHeight == |lines| * fontSize + fontSize / 4
  {
    var lines := Split(err, '\n');
    var yLine := 0;
    var nChars := 0;
    var i := 0;
    while i < |lines|
      invariant 0 <= i <= |lines|
      invariant yLine == Stacked(i, fontSize)
      invariant nChars == LongestLine(lines[..i])
    {
      LongestLineStep(lines, i);
      yLine := yLine + fontSize;
      nChars := if nChars > |lines[i]| then nChars else |lines[i]|;
      i := i + 1;
    }
    assert lines[..i] == lines;
    StackedIsProduct(i, fontSize);
    eWidth := nChars * fontSize / 2;
    eHeight := yLine + fontSize / 4;
  }

  /** The `yLine` the loop reaches after n lines of `size` pixels. */
  function Stacked(n: nat, size: int): int {
    if n == 0 then 0 else Stacked(n - 1, size) + size
  }

  lemma {:induction false} StackedIsProduct(n: nat, size: int)
    ensures Stacked(n, size) == n * size
  {
    if n > 0 {
      StackedIsProduct(n - 1, size);
      DistribAdd(size, n - 1, 1);
    }
  }

  /** One more line: the longest is the longer of the old longest and the new line. */
  lemma LongestLineStep(lines: seq<string>, i: nat)
    requires i < |lines|
    ensures LongestLine(lines[..i + 1]) == if LongestLine(lines[..i]) > |lines[i]| then LongestLine(lines[..i]) else |lines[i]|
  {
    assert lines[..i + 1][..i] == lines[..i];
  }

  /** Every line of the message fits in the clip's width, and the lines fit
      above its last quarter line, for a non-negative font size. */
  lemma ErrorLinesFit(err: string, fontSize: nat, k: int)
    requires 0 <= k < |Split(err, '\n')|
    ensures var lines := Split(err, '\n');
      |lines[k]| * fontSize / 2 <= LongestLine(lines) * fontSize / 2 &&
      (k + 1) * fontSize <= |lines| * fontSize
  {
    var lines := Split(err, '\n');
    var n := LongestLine(lines);
    assert |lines[k]| * fontSize <= n * fontSize by {
      MulMonotone(|lines[k]|, n, fontSize);
    }
    MulMonotone(k + 1, |lines|, fontSize);
  }

  lemma {:induction false} MulMonotone(a: nat, b: nat, c: nat)
    requires a <= b
    ensures a * c <= b * c
    decreases b - a
  {
    if a < b {
      MulMonotone(a, b - 1, c);
      DistribAdd(c, b - 1, 1);
    }
  }

  // ---------------------------------------------------------------------
  // Audio bit depth (AvsClipBase.__init__)
  // ---------------------------------------------------------------------

  /** `sample_type_dict.get(sample_type, 0)`. */
  function AudioBits(sampleType: int): (r: nat)
    ensures r in {0, 8, 16, 24, 32}
  {
    if sampleType == SAMPLE_INT8 then 8
    else if sampleType == SAMPLE_INT16 then 16
    else if sampleType == SAMPLE_INT24 then 24
    else if sampleType == SAMPLE_INT32 then 32
    else if sampleType == SAMPLE_FLOAT then 32
    else 0
  }

  /** The table agrees with `bytes_per_channel_sample`: eight bits a byte. */
  lemma AudioBitsMatchBytes(vi: VideoInfoC)
    ensures AudioBits(vi.sampleType) == vi.BytesPerChannelSample() * 8
  {
  }
}
