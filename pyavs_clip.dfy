/** `AvsClipBase` of pyavs.py, with the `DrawFrame` of its wxPython subclass
    `AvsClip`: the frame cache `_GetFrame` keeps, the pixel readers over the
    cached plane pointers, the raw-frame export and the autocrop scan. */
module PyavsClip {

  import opened Wrappers
  import opened AvsConstants
  import opened AvsFrame
  import opened AvsClip
  import opened AvsVideoInfo
  import opened PyavsLayout
  import opened Y4m

  /** The native format queries of the clip's descriptor: `bits_per_pixel`
      and the per-plane subsampling exponents. */
  datatype FormatQueries = FormatQueries(
    bitsPerPixel: int,
    planeWidthSubsampling: bv32 -> nat,
    planeHeightSubsampling: bv32 -> nat)

  /** What `RawFrame` returns: the frame header text followed by the frame data. */
  datatype RawBuffer = RawBuffer(header: string, data: array<byte>)

  /** Which edge an autocrop pass measures. */
  datatype Side = Top | Bottom | Left | Right

  function Abs(a: int): (r: nat)
    ensures r == a || r == -a
  {
    if a < 0 then -a else a
  }

  /** The autocrop test: some component differs from the reference by more
      than the tolerance. */
  predicate Differs(c: (int, int, int), ref: (int, int, int), tol: int) {
    Abs(c.0 - ref.0) > tol || Abs(c.1 - ref.1) > tol || Abs(c.2 - ref.2) > tol
  }

  function Zeros(n: nat): (r: seq<byte>)
    ensures |r| == n && forall k :: 0 <= k < n ==> r[k] == 0
  {
    seq(n, _ => 0 as byte)
  }

  /** `bit_blt` into a buffer whose pitch is the row size: `height` rows of
      `rowSize` bytes, row y read from `src` at y * pitch, written back to back. */
  function Blit(src: int -> byte, pitch: int, rowSize: int, height: int): (r: seq<byte>)
    ensures rowSize <= 0 || height <= 0 ==> r == []
    ensures rowSize > 0 && height > 0 ==> |r| == rowSize * height
  {
    if rowSize <= 0 || height <= 0 then []
    else seq(rowSize * height, k requires 0 <= k < rowSize * height => src((k / rowSize) * pitch + k % rowSize))
  }

  /** Byte x of row y of a blit is byte x of source row y. */
  lemma BlitRowMajor(src: int -> byte, pitch: int, rowSize: int, height: int, x: int, y: int)
    requires 0 <= x < rowSize && 0 <= y < height
    ensures 0 <= y * rowSize + x < |Blit(src, pitch, rowSize, height)|
    ensures Blit(src, pitch, rowSize, height)[y * rowSize + x] == src(y * pitch + x)
  {
    MulMonotone(y + 1, height, rowSize);
    DivModUnique(rowSize, y * rowSize + x, y, x);
  }

  /** The bitmap `DrawFrame` fills: `h` rows of `w3` bytes, output row i taken
      from source row h-1-i, turning the bottom-up frame upright. */
  function Flipped(src: int -> byte, pitch: int, w3: nat, h: nat): (r: seq<byte>)
    ensures |r| == h * w3
  {
    if w3 == 0 then Zeros(h * w3)
    else seq(h * w3, k requires 0 <= k < h * w3 => src((h - 1 - k / w3) * pitch + k % w3))
  }

  /** Byte k of output row i is byte k of source row h-1-i. */
  lemma FlippedRow(src: int -> byte, pitch: int, w3: nat, h: nat, i: int, k: int)
    requires 0 <= i < h && 0 <= k < w3
    ensures 0 <= i * w3 + k < h * w3
    ensures Flipped(src, pitch, w3, h)[i * w3 + k] == src((h - 1 - i) * pitch + k)
  {
    MulMonotone(i + 1, h, w3);
    DivModUnique(w3, i * w3 + k, i, k);
  }

  class AvsClipBase {
    const initialized: bool
    const clip: Clip
    const displayClip: Clip?
    const framecount: int
    const width: int
    const height: int
    const displayWidth: nat
    const displayHeight: nat
    const isPlanar: bool
    const isY8: bool
    const isYuy2: bool
    const isRgb: bool
    const isRgb32: bool
    /** Subsampling exponents of the chroma planes. */
    const widthSubsampling: nat
    const heightSubsampling: nat
    const format: FormatQueries

    /** The frame the pointers below were taken from, -1 when none. */
    var currentFrame: int
    var srcFrame: Option<FramePtr>
    var pitch: int
    var pitchUV: int
    var ptrY: Option<int -> byte>
    var ptrU: Option<int -> byte>
    var ptrV: Option<int -> byte>
    var displayFrame: Option<FramePtr>
    var displayPitch: int
    var pBits: Option<int -> byte>

    /** The state `__init__` leaves: no frame fetched, no pointer taken. */
    constructor (initialized: bool, clip: Clip, displayClip: Clip?, framecount: int,
                 width: int, height: int, displayWidth: nat, displayHeight: nat,
                 isPlanar: bool, isY8: bool, isYuy2: bool, isRgb: bool, isRgb32: bool,
                 widthSubsampling: nat, heightSubsampling: nat, format: FormatQueries)
      ensures this.initialized == initialized && this.clip == clip && this.displayClip == displayClip
      ensures this.framecount == framecount && this.width == width && this.height == height
      ensures this.displayWidth == displayWidth && this.displayHeight == displayHeight
      ensures this.isPlanar == isPlanar && this.isY8 == isY8 && this.isYuy2 == isYuy2
      ensures this.isRgb == isRgb && this.isRgb32 == isRgb32
      ensures this.widthSubsampling == widthSubsampling && this.heightSubsampling == heightSubsampling
      ensures this.format == format
      ensures currentFrame == -1 && srcFrame == None && displayFrame == None
      ensures ptrY == None && ptrU == None && ptrV == None && pBits == None
      ensures FrameCached()
    {
      this.initialized := initialized;
      this.clip := clip;
      this.displayClip := displayClip;
      this.framecount := framecount;
      this.width := width;
      this.height := height;
      this.displayWidth := displayWidth;
      this.displayHeight := displayHeight;
      this.isPlanar := isPlanar;
      this.isY8 := isY8;
      this.isYuy2 := isYuy2;
      this.isRgb := isRgb;
      this.isRgb32 := isRgb32;
      this.widthSubsampling := widthSubsampling;
      this.heightSubsampling := heightSubsampling;
      this.format := format;
      currentFrame := -1;
      srcFrame := None;
      pitch := 0;
      pitchUV := 0;
      ptrY := None;
      ptrU := None;
      ptrV := None;
      displayFrame := None;
      displayPitch := 0;
      pBits := None;
    }

    // -------------------------------------------------------------------
    // The frame cache (_GetFrame)
    // -------------------------------------------------------------------

    /** Both clips deliver frame n. */
    predicate Available(n: int) {
      clip.native.fetch(n).Delivered? &&
      (displayClip != null ==> displayClip.native.fetch(n).Delivered?)
    }

    /** The source pitches and pointers are those of frame n of the clip. */
    ghost predicate HoldsSource(n: int)
      reads this
    {
      clip.native.fetch(n).Delivered? &&
      var f := clip.native.fetch(n).frame;
      srcFrame == Some(Ptr(f)) &&
      pitch == f.pitchOf(PLANAR_Y) && pitchUV == f.pitchOf(PLANAR_U) &&
      ptrY == Some(f.readPtr(PLANAR_Y)) &&
      (!isY8 ==> ptrU == Some(f.readPtr(PLANAR_U)) && ptrV == Some(f.readPtr(PLANAR_V)))
    }

    /** The display pitch and pointer are those of frame n of the display clip. */
    ghost predicate HoldsDisplay(n: int)
      reads this
    {
      displayClip != null ==>
        displayClip.native.fetch(n).Delivered? &&
        var g := displayClip.native.fetch(n).frame;
        displayFrame == Some(Ptr(g)) &&
        displayPitch == g.pitchOf(PLANAR_Y) && pBits == Some(g.readPtr(PLANAR_Y))
    }

    /** The cache is honest: `currentFrame`, when set, names the frame every
        pointer was taken from. */
    ghost predicate FrameCached()
      reads this
    {
      currentFrame != -1 ==> HoldsSource(currentFrame) && HoldsDisplay(currentFrame)
    }

    /** `_GetFrame` as written: the number is clamped, the clip's frame
        fetched and its pitches and pointers taken (U and V unless Y8), then
        the same for the display clip; `current_frame` is only updated at the
        end, so a display failure leaves it naming the old frame while the
        source pointers already belong to the new one. */
    method GetFrameAsWritten(frame: int) returns (ok: bool)
      requires clip.native.WellBehaved()
      requires displayClip != null ==> displayClip.native.WellBehaved()
      modifies this, clip, displayClip
      ensures !initialized ==> !ok && unchanged(this) && unchanged(clip)
      ensures initialized && old(currentFrame) == frame ==> ok && unchanged(this) && unchanged(clip)
      ensures initialized && old(currentFrame) != frame ==>
                var n := ClampFrame(frame, framecount);
                (ok <==> Available(n)) &&
                (ok ==> currentFrame == n && HoldsSource(n) && HoldsDisplay(n)) &&
                (!ok ==> currentFrame == old(currentFrame)) &&
                (clip.native.fetch(n).Delivered? ==> HoldsSource(n))
    {
      if !initialized {
        return false;
      }
      if currentFrame == frame {
        return true;
      }
      var n := ClampFrame(frame, framecount);
      ok := FetchSource(n);
      if !ok {
        return;
      }
      ok := FetchDisplay(n);
      if !ok {
        return;
      }
      currentFrame := n;
    }

    /** `_GetFrame` with the cache invalidated before anything is fetched, so
        that a failed fetch leaves no frame claimed. */
    method GetFrame(frame: int) returns (ok: bool)
      requires clip.native.WellBehaved()
      requires displayClip != null ==> displayClip.native.WellBehaved()
      requires FrameCached()
      modifies this, clip, displayClip
      ensures FrameCached()
      ensures !initialized ==> !ok && unchanged(this) && unchanged(clip)
      ensures initialized && old(currentFrame) == frame ==> ok && unchanged(this) && unchanged(clip)
      ensures initialized && old(currentFrame) != frame ==>
                var n := ClampFrame(frame, framecount);
                (ok <==> Available(n)) &&
                (ok ==> currentFrame == n && HoldsSource(n) && HoldsDisplay(n)) &&
                (!ok ==> currentFrame == -1)
    {
      if !initialized {
        return false;
      }
      if currentFrame == frame {
        return true;
      }
      var n := ClampFrame(frame, framecount);
      currentFrame := -1;
      ok := FetchSource(n);
      if !ok {
        return;
      }
      ok := FetchDisplay(n);
      if !ok {
        return;
      }
      currentFrame := n;
    }

    /** The source half of `_GetFrame`: fetch, test `get_error`, take pointers. */
    method FetchSource(n: int) returns (ok: bool)
      requires clip.native.WellBehaved()
      modifies this, clip
      ensures ok <==> clip.native.fetch(n).Delivered?
      ensures clip.native.fetch(n).Delivered? ==> HoldsSource(n)
      ensures currentFrame == old(currentFrame)
      ensures displayFrame == old(displayFrame) && displayPitch == old(displayPitch) && pBits == old(pBits)
    {
      srcFrame := clip.GetFrame(n);
      var e := clip.GetError();
      if Truthy(e) {
        return false;
      }
      var f := clip.native.fetch(n).frame;
      pitch := f.pitchOf(PLANAR_Y);
      pitchUV := f.pitchOf(PLANAR_U);
      ptrY := Some(f.readPtr(PLANAR_Y));
      if !isY8 {
        ptrU := Some(f.readPtr(PLANAR_U));
        ptrV := Some(f.readPtr(PLANAR_V));
      }
      ok := true;
    }

    /** The display half of `_GetFrame`, skipped when there is no display clip. */
    method FetchDisplay(n: int) returns (ok: bool)
      requires displayClip != null ==> displayClip.native.WellBehaved()
      modifies this, displayClip
      ensures ok <==> displayClip != null ==> displayClip.native.fetch(n).Delivered?
      ensures ok ==> HoldsDisplay(n)
      ensures currentFrame == old(currentFrame) && srcFrame == old(srcFrame)
      ensures pitch == old(pitch) && pitchUV == old(pitchUV)
      ensures ptrY == old(ptrY) && ptrU == old(ptrU) && ptrV == old(ptrV)
    {
      if displayClip == null {
        return true;
      }
      displayFrame := displayClip.GetFrame(n);
      var e := displayClip.GetError();
      if Truthy(e) {
        return false;
      }
      var g := displayClip.native.fetch(n).frame;
      displayPitch := g.pitchOf(PLANAR_Y);
      pBits := Some(g.readPtr(PLANAR_Y));
      ok := true;
    }

    /** A failed display fetch after a delivered source fetch leaves the cache
        claiming the old frame with the new frame's luma pointer. */
    lemma StaleCacheAsWritten(n: int)
      requires currentFrame != -1 && currentFrame != n && HoldsSource(n)
      requires clip.native.fetch(currentFrame).Delivered? ==>
                 clip.native.fetch(currentFrame).frame.readPtr(PLANAR_Y) != clip.native.fetch(n).frame.readPtr(PLANAR_Y)
      ensures !FrameCached()
    {
    }

    // -------------------------------------------------------------------
    // Pixel readers
    // -------------------------------------------------------------------

    /** The pointers `GetPixelYUV` subscripts are there. */
    predicate YuvReadable()
      reads this
    {
      (isPlanar ==> ptrY.Some? && (!isY8 ==> ptrU.Some? && ptrV.Some?)) &&
      (!isPlanar && isYuy2 ==> ptrY.Some? && ptrU.Some? && ptrV.Some?)
    }

    /** `GetPixelYUV(x, y)`: planar formats read luma at (x, y) and chroma at
        the subsampled position (Y8 has no chroma: -1, -1); YUY2 reads the
        three bytes of the pixel's macropixel; other formats give -1s. */
    function GetPixelYUV(x: int, y: int): (r: (int, int, int))
      reads this
      requires YuvReadable()
      ensures isPlanar && isY8 ==> r == (ptrY.value(PlanarLumaIndex(x, y, pitch)) as int, -1, -1)
      ensures isPlanar && !isY8 ==>
                var c := PlanarChromaIndex(x, y, widthSubsampling, heightSubsampling, pitchUV);
                r == (ptrY.value(PlanarLumaIndex(x, y, pitch)) as int, ptrU.value(c) as int, ptrV.value(c) as int)
      ensures !isPlanar && isYuy2 ==>
                var i := Yuy2Indices(x, y, pitch);
                r == (ptrY.value(i.0) as int, ptrU.value(i.1) as int, ptrV.value(i.2) as int)
      ensures !isPlanar && !isYuy2 ==> r == (-1, -1, -1)
    {
      if isPlanar then
        var indexY := PlanarLumaIndex(x, y, pitch);
        if isY8 then (ptrY.value(indexY) as int, -1, -1)
        else
          var c := PlanarChromaIndex(x, y, widthSubsampling, heightSubsampling, pitchUV);
          (ptrY.value(indexY) as int, ptrU.value(c) as int, ptrV.value(c) as int)
      else if isYuy2 then
        var i := Yuy2Indices(x, y, pitch);
        (ptrY.value(i.0) as int, ptrU.value(i.1) as int, ptrV.value(i.2) as int)
      else (-1, -1, -1)
    }

    /** In a subsampled planar frame, every pixel of a chroma block reports
        the same U and V. */
    lemma ChromaSharedInBlock(cx: int, cy: int, dx: int, dy: int, dx': int, dy': int)
      requires isPlanar && !isY8 && YuvReadable()
      requires 0 <= dx < Pow2(widthSubsampling) && 0 <= dx' < Pow2(widthSubsampling)
      requires 0 <= dy < Pow2(heightSubsampling) && 0 <= dy' < Pow2(heightSubsampling)
      ensures var p := GetPixelYUV(cx * Pow2(widthSubsampling) + dx, cy * Pow2(heightSubsampling) + dy);
        var q := GetPixelYUV(cx * Pow2(widthSubsampling) + dx', cy * Pow2(heightSubsampling) + dy');
        p.1 == q.1 && p.2 == q.2
    {
      var x, y := cx * Pow2(widthSubsampling) + dx, cy * Pow2(heightSubsampling) + dy;
      var x', y' := cx * Pow2(widthSubsampling) + dx', cy * Pow2(heightSubsampling) + dy';
      ChromaBlockShared(cx, cy, dx, dy, widthSubsampling, heightSubsampling, pitchUV);
      ChromaBlockShared(cx, cy, dx', dy', widthSubsampling, heightSubsampling, pitchUV);
      var c := PlanarChromaIndex(x, y, widthSubsampling, heightSubsampling, pitchUV);
      assert c == PlanarChromaIndex(x', y', widthSubsampling, heightSubsampling, pitchUV);
      assert GetPixelYUV(x, y).1 == ptrU.value(c) as int == GetPixelYUV(x', y').1;
      assert GetPixelYUV(x, y).2 == ptrV.value(c) as int == GetPixelYUV(x', y').2;
    }

    /** In a YUY2 frame the pixels 2m and 2m+1 report the same U and V. */
    lemma Yuy2PairShared(m: int, y: int)
      requires !isPlanar && isYuy2 && YuvReadable()
      ensures GetPixelYUV(2 * m, y).1 == GetPixelYUV(2 * m + 1, y).1
      ensures GetPixelYUV(2 * m, y).2 == GetPixelYUV(2 * m + 1, y).2
    {
      Yuy2Macropixel(m, y, pitch);
    }

    /** The byte count of one pixel, `bytes_from_pixels(1)` as intended. */
    function PixelBytes(): int {
      BytesFromPixels(format.bitsPerPixel, 1)
    }

    /** `GetPixelRGB(x, y, BGR)`: the R, G, B bytes of the pixel, -1s for a
        clip that is not RGB. */
    function GetPixelRGB(x: int, y: int, bgr: bool): (r: (int, int, int))
      reads this
      requires isRgb ==> ptrY.Some?
      ensures isRgb ==>
                var i := RgbIndices(x, y, PixelBytes(), height, pitch, bgr);
                r == (ptrY.value(i.0) as int, ptrY.value(i.1) as int, ptrY.value(i.2) as int)
      ensures !isRgb ==> r == (-1, -1, -1)
    {
      if isRgb then
        var i := RgbIndices(x, y, PixelBytes(), height, pitch, bgr);
        (ptrY.value(i.0) as int, ptrY.value(i.1) as int, ptrY.value(i.2) as int)
      else (-1, -1, -1)
    }

    /** `GetPixelRGBA(x, y, BGR)`: the R, G, B, A bytes of the pixel, -1s for
        a clip that is not RGB32. */
    function GetPixelRGBA(x: int, y: int, bgr: bool): (r: (int, int, int, int))
      reads this
      requires isRgb32 ==> ptrY.Some?
      ensures isRgb32 ==>
                var i := RgbaIndices(x, y, PixelBytes(), height, pitch, bgr);
                r == (ptrY.value(i.0) as int, ptrY.value(i.1) as int, ptrY.value(i.2) as int, ptrY.value(i.3) as int)
      ensures !isRgb32 ==> r == (-1, -1, -1, -1)
    {
      if isRgb32 then
        var i := RgbaIndices(x, y, PixelBytes(), height, pitch, bgr);
        (ptrY.value(i.0) as int, ptrY.value(i.1) as int, ptrY.value(i.2) as int, ptrY.value(i.3) as int)
      else (-1, -1, -1, -1)
    }

    /** The colour of an RGB32 pixel is the same through both readers. */
    lemma RgbaExtendsRgb(x: int, y: int, bgr: bool)
      requires isRgb && isRgb32 && ptrY.Some?
      ensures var c := GetPixelRGB(x, y, bgr);
        var a := GetPixelRGBA(x, y, bgr);
        (a.0, a.1, a.2) == c
    {
    }

    /** Reading a BGR frame at line y is reading its memory at line
        height-1-y from the top. */
    lemma BgrReadsBottomUp(x: int, y: int)
      requires isRgb && ptrY.Some?
      ensures GetPixelRGB(x, y, true) == GetPixelRGB(x, height - 1 - y, false).(0 := GetPixelRGB(x, height - 1 - y, false).2, 2 := GetPixelRGB(x, height - 1 - y, false).0)
    {
      BgrLinesBottomUp(x, y, PixelBytes(), height, pitch);
    }

    // -------------------------------------------------------------------
    // RawFrame
    // -------------------------------------------------------------------

    /** The size of the buffer `RawFrame` allocates for the frame data. */
    function TotalBytes(): int {
      Shr(width * height * format.bitsPerPixel, 3)
    }

    /** One plane of a planar frame: the luma row size and height shifted
        down by that plane's subsampling. */
    function PlaneData(f: Frame, plane: bv32): seq<byte> {
      Blit(f.readPtr(plane), f.pitchOf(plane),
           Shr(f.rowSizeOf(PLANAR_Y), format.planeWidthSubsampling(plane)),
           Shr(f.heightOf(PLANAR_Y), format.planeHeightSubsampling(plane)))
    }

    /** The given planes of a frame, back to back. */
    function PlanesData(f: Frame, planes: seq<bv32>): seq<byte>
      decreases |planes|
    {
      if planes == [] then []
      else PlanesData(f, planes[..|planes| - 1]) + PlaneData(f, planes[|planes| - 1])
    }

    /** The planes before index i are laid out at the start of all of them. */
    lemma {:induction false} PlanesDataPrefix(f: Frame, planes: seq<bv32>, i: nat)
      requires i <= |planes|
      ensures PlanesData(f, planes[..i]) <= PlanesData(f, planes)
      decreases |planes| - i
    {
      if i < |planes| {
        PlanesDataPrefix(f, planes[..|planes| - 1], i);
        assert planes[..|planes| - 1][..i] == planes[..i];
      } else {
        assert planes[..i] == planes;
      }
    }

    /** The bytes `RawFrame` copies: the Y, U and V planes back to back for a
        planar clip with chroma, the luma plane alone otherwise. */
    function RawData(f: Frame): seq<byte> {
      if isPlanar && !isY8 then PlanesData(f, [PLANAR_Y, PLANAR_U, PLANAR_V])
      else Blit(f.readPtr(PLANAR_Y), f.pitchOf(PLANAR_Y), f.rowSizeOf(PLANAR_Y), f.heightOf(PLANAR_Y))
    }

    /** The planar layout spelt out: Y, then U, then V. */
    lemma RawDataPlanar(f: Frame)
      requires isPlanar && !isY8
      ensures RawData(f) == PlaneData(f, PLANAR_Y) + PlaneData(f, PLANAR_U) + PlaneData(f, PLANAR_V)
    {
      var planes := [PLANAR_Y, PLANAR_U, PLANAR_V];
      assert planes[..2] == [PLANAR_Y, PLANAR_U];
      assert [PLANAR_Y, PLANAR_U][..1] == [PLANAR_Y];
      assert [PLANAR_Y][..0] == [];
      assert PlanesData(f, [PLANAR_Y]) == PlaneData(f, PLANAR_Y);
      assert PlanesData(f, planes[..2]) == PlaneData(f, PLANAR_Y) + PlaneData(f, PLANAR_U);
    }

    /** The engine's `bit_blt` into the buffer at `at`: the blit of the plane
        lands there and the rest of the buffer is kept. */
    static method BitBlt(buf: array<byte>, at: nat, src: int -> byte, pitch: int, rowSize: int, height: int)
      requires at + |Blit(src, pitch, rowSize, height)| <= buf.Length
      modifies buf
      ensures buf[..] == old(buf[..at]) + Blit(src, pitch, rowSize, height)
                         + old(buf[at + |Blit(src, pitch, rowSize, height)|..])
    {
      var b := Blit(src, pitch, rowSize, height);
      forall k | at <= k < at + |b| {
        buf[k] := b[k - at];
      }
      assert buf[..] == old(buf[..at]) + b + old(buf[at + |b|..]);
    }

    /** One turn of the plane loop of `RawFrame`: plane i is blitted at
        `write_addr`, which then moves past it. */
    method CopyPlane(buf: array<byte>, f: Frame, planes: seq<bv32>, i: nat, writeAddr: nat) returns (next: nat)
      requires i < |planes|
      requires writeAddr == |PlanesData(f, planes[..i])|
      requires |PlanesData(f, planes)| <= buf.Length
      requires writeAddr <= buf.Length
      requires buf[..] == PlanesData(f, planes[..i]) + Zeros(buf.Length - writeAddr)
      modifies buf
      ensures next == |PlanesData(f, planes[..i + 1])| <= buf.Length
      ensures buf[..] == PlanesData(f, planes[..i + 1]) + Zeros(buf.Length - next)
    {
      var plane := planes[i];
      var w := Shr(f.rowSizeOf(PLANAR_Y), format.planeWidthSubsampling(plane));
      var h := Shr(f.heightOf(PLANAR_Y), format.planeHeightSubsampling(plane));
      assert planes[..i + 1][..i] == planes[..i];
      PlanesDataPrefix(f, planes, i + 1);
      ghost var b := PlaneData(f, plane);
      BitBlt(buf, writeAddr, f.readPtr(plane), f.pitchOf(plane), w, h);
      next := writeAddr;
      if w > 0 && h > 0 {
        next := writeAddr + w * h;
      }
      assert next == writeAddr + |b|;
      assert buf[..] == PlanesData(f, planes[..i]) + b + Zeros(buf.Length - next);
    }

    /** The copying half of `RawFrame`: the frame data written into the
        start of the zero-filled buffer. */
    method FillBuffer(buf: array<byte>, f: Frame)
      requires forall k :: 0 <= k < buf.Length ==> buf[k] == 0
      requires |RawData(f)| <= buf.Length
      modifies buf
      ensures buf[..] == RawData(f) + Zeros(buf.Length - |RawData(f)|)
    {
      assert buf[..] == Zeros(buf.Length);
      if isPlanar && !isY8 {
        var planes := [PLANAR_Y, PLANAR_U, PLANAR_V];
        var writeAddr := 0;
        var i := 0;
        while i < |planes|
          invariant 0 <= i <= |planes|
          invariant writeAddr == |PlanesData(f, planes[..i])| <= buf.Length
          invariant buf[..] == PlanesData(f, planes[..i]) + Zeros(buf.Length - writeAddr)
        {
          writeAddr := CopyPlane(buf, f, planes, i, writeAddr);
          i := i + 1;
        }
        assert planes[..i] == planes;
      } else {
        BitBlt(buf, 0, f.readPtr(PLANAR_Y), f.pitchOf(PLANAR_Y), f.rowSizeOf(PLANAR_Y), f.heightOf(PLANAR_Y));
      }
    }

    /** `RawFrame(frame, y4m_header)`: None when the clip is not initialised or
        the fetch fails; otherwise the frame header and a fresh zero-filled
        buffer of `TotalBytes()` bytes into whose start the planes were copied,
        `write_addr` advancing past each one. */
    method RawFrame(frame: int, y4mHeader: FrameHeaderArg) returns (r: Option<RawBuffer>)
      requires clip.native.WellBehaved()
      requires initialized && clip.native.fetch(ClampFrame(frame, framecount)).Delivered? ==>
                 |RawData(clip.native.fetch(ClampFrame(frame, framecount)).frame)| <= TotalBytes()
      modifies clip
      ensures !initialized ==> r == None
      ensures initialized ==>
                var n := ClampFrame(frame, framecount);
                (r.Some? <==> clip.native.fetch(n).Delivered?) &&
                (r.Some? ==>
                   var data := RawData(clip.native.fetch(n).frame);
                   fresh(r.value.data) &&
                   r.value.header == FrameHeader(y4mHeader) &&
                   r.value.data.Length == TotalBytes() &&
                   r.value.data[..] == data + Zeros(TotalBytes() - |data|))
    {
      if !initialized {
        return None;
      }
      var n := ClampFrame(frame, framecount);
      var fetched := clip.GetFrame(n);
      var e := clip.GetError();
      if Truthy(e) {
        return None;
      }
      // no error was reported, so the fetch delivered and `fetched` points at its frame
      assert fetched == Some(Ptr(clip.native.fetch(n).frame));
      var f := fetched.value.frame;
      var buf := new byte[TotalBytes()](_ => 0 as byte);
      FillBuffer(buf, f);
      r := Some(RawBuffer(FrameHeader(y4mHeader), buf));
    }

    // -------------------------------------------------------------------
    // AutocropFrame
    // -------------------------------------------------------------------

    /** The pointers the colour reader subscripts are there. */
    predicate ColorReadable()
      reads this
    {
      if isRgb then ptrY.Some? else YuvReadable()
    }

    /** `GetPixelColor`: the RGB reader (BGR order) for RGB clips, the YUV
        reader otherwise. */
    function PixelColor(x: int, y: int): (int, int, int)
      reads this
      requires ColorReadable()
    {
      if isRgb then GetPixelRGB(x, y, true) else GetPixelYUV(x, y)
    }

    /** How many lines a side has, and how many pixels each of its lines. */
    function Lines(side: Side): int {
      if side == Top || side == Bottom then height else width
    }
    function LineLength(side: Side): int {
      if side == Top || side == Bottom then width else height
    }

    /** Pixel c of line k counted inward from a side. */
    function SideColor(side: Side, k: int, c: int): (int, int, int)
      reads this
      requires ColorReadable()
    {
      match side
      case Top => PixelColor(c, k)
      case Bottom => PixelColor(c, height - 1 - k)
      case Left => PixelColor(k, c)
      case Right => PixelColor(width - 1 - k, c)
    }

    /** Line k from a side holds a pixel that differs from the reference. */
    ghost predicate LineDiffers(side: Side, k: int, ref: (int, int, int), tol: int)
      reads this
      requires ColorReadable()
    {
      exists c :: 0 <= c < LineLength(side) && Differs(SideColor(side, k, c), ref, tol)
    }

    /** `e` is the crop of a side: the number of lines before the first line
        that differs, 0 when no line differs. */
    ghost predicate IsCrop(side: Side, e: int, ref: (int, int, int), tol: int)
      reads this
      requires ColorReadable()
    {
      0 <= e &&
      (forall k :: 0 <= k < e ==> !LineDiffers(side, k, ref, tol)) &&
      ((exists k :: 0 <= k < Lines(side) && LineDiffers(side, k, ref, tol)) ==>
         e < Lines(side) && LineDiffers(side, e, ref, tol)) &&
      (!(exists k :: 0 <= k < Lines(side) && LineDiffers(side, k, ref, tol)) ==> e == 0)
    }

    /** Where a side's scan stands once lines 0..i-1 are done: not stopped,
        and none of those lines differs; or stopped at its first differing
        line `e`. */
    ghost predicate Scanned(side: Side, i: int, e: int, done: bool, ref: (int, int, int), tol: int)
      reads this
      requires ColorReadable()
    {
      (!done ==> e == 0 && forall k :: 0 <= k < i ==> !LineDiffers(side, k, ref, tol)) &&
      (done ==> 0 <= e < i && LineDiffers(side, e, ref, tol) &&
                forall k :: 0 <= k < e ==> !LineDiffers(side, k, ref, tol))
    }

    /** Where a side's scan stands inside line i, after its pixels 0..j-1. */
    ghost predicate ScannedInLine(side: Side, i: int, j: int, e: int, done: bool, ref: (int, int, int), tol: int)
      reads this
      requires ColorReadable()
    {
      (!done ==> e == 0 && (forall k :: 0 <= k < i ==> !LineDiffers(side, k, ref, tol)) &&
                 forall c :: 0 <= c < j ==> !Differs(SideColor(side, i, c), ref, tol)) &&
      (done ==> 0 <= e <= i && LineDiffers(side, e, ref, tol) &&
                forall k :: 0 <= k < e ==> !LineDiffers(side, k, ref, tol))
    }

    /** A scan that got through every line, or stopped, has found the crop. */
    lemma ScannedIsCrop(side: Side, i: int, e: int, done: bool, ref: (int, int, int), tol: int)
      requires ColorReadable()
      requires Scanned(side, i, e, done, ref, tol)
      requires i >= Lines(side) || done
      requires done ==> e < Lines(side)
      ensures IsCrop(side, e, ref, tol)
    {
    }

    lemma LineStarted(side: Side, i: int, e: int, done: bool, ref: (int, int, int), tol: int)
      requires ColorReadable()
      requires Scanned(side, i, e, done, ref, tol)
      ensures ScannedInLine(side, i, 0, e, done, ref, tol)
    {
    }

    lemma LineFinished(side: Side, i: int, j: int, e: int, done: bool, ref: (int, int, int), tol: int)
      requires ColorReadable()
      requires ScannedInLine(side, i, j, e, done, ref, tol)
      requires done || j >= LineLength(side)
      ensures Scanned(side, i + 1, e, done, ref, tol)
    {
      if !done {
        assert !LineDiffers(side, i, ref, tol);
      }
    }

    /** One pixel of the scan of a side: the first differing pixel stops it. */
    method ScanPixel(side: Side, i: int, j: int, e0: int, done0: bool, ref: (int, int, int), tol: int)
      returns (e: int, done: bool)
      requires ColorReadable()
      requires 0 <= i && 0 <= j < LineLength(side)
      requires ScannedInLine(side, i, j, e0, done0, ref, tol)
      ensures ScannedInLine(side, i, j + 1, e, done, ref, tol)
      ensures done0 ==> e == e0 && done
    {
      e, done := e0, done0;
      if !done && Differs(SideColor(side, i, j), ref, tol) {
        assert LineDiffers(side, i, ref, tol);
        e, done := i, true;
      }
    }

    /** Pixel j of line i, from both sides of a pass. */
    method ScanPixelPair(a: Side, b: Side, i: int, j: int, ea0: int, aDone0: bool, eb0: int, bDone0: bool,
                         refA: (int, int, int), refB: (int, int, int), tol: int)
      returns (ea: int, aDone: bool, eb: int, bDone: bool)
      requires ColorReadable()
      requires 0 <= i && 0 <= j < LineLength(a) == LineLength(b)
      requires ScannedInLine(a, i, j, ea0, aDone0, refA, tol) && ScannedInLine(b, i, j, eb0, bDone0, refB, tol)
      ensures ScannedInLine(a, i, j + 1, ea, aDone, refA, tol) && ScannedInLine(b, i, j + 1, eb, bDone, refB, tol)
      ensures aDone0 ==> ea == ea0 && aDone
      ensures bDone0 ==> eb == eb0 && bDone
    {
      ea, aDone := ScanPixel(a, i, j, ea0, aDone0, refA, tol);
      eb, bDone := ScanPixel(b, i, j, eb0, bDone0, refB, tol);
    }

    /** One line of a pass: pixel by pixel across line i, until both sides
        have stopped. */
    method ScanLine(a: Side, b: Side, i: int, ea0: int, aDone0: bool, eb0: int, bDone0: bool,
                    refA: (int, int, int), refB: (int, int, int), tol: int)
      returns (ea: int, aDone: bool, eb: int, bDone: bool)
      requires ColorReadable()
      requires 0 <= i && LineLength(a) == LineLength(b)
      requires Scanned(a, i, ea0, aDone0, refA, tol) && Scanned(b, i, eb0, bDone0, refB, tol)
      ensures Scanned(a, i + 1, ea, aDone, refA, tol) && Scanned(b, i + 1, eb, bDone, refB, tol)
    {
      var len := LineLength(a);
      ea, aDone, eb, bDone := ea0, aDone0, eb0, bDone0;
      LineStarted(a, i, ea, aDone, refA, tol);
      LineStarted(b, i, eb, bDone, refB, tol);
      var j := 0;
      while j < len && !(aDone && bDone)
        invariant 0 <= j
        invariant j == 0 || j <= len
        invariant ScannedInLine(a, i, j, ea, aDone, refA, tol)
        invariant ScannedInLine(b, i, j, eb, bDone, refB, tol)
      {
        ea, aDone, eb, bDone := ScanPixelPair(a, b, i, j, ea, aDone, eb, bDone, refA, refB, tol);
        j := j + 1;
      }
      LineFinished(a, i, j, ea, aDone, refA, tol);
      LineFinished(b, i, j, eb, bDone, refB, tol);
    }

    /** One pass of `AutocropFrame`: lines are scanned inward from two
        opposite sides at once, pixel by pixel, each side stopping at its first
        differing pixel, and the pass ends when both have stopped. */
    method ScanPair(a: Side, b: Side, refA: (int, int, int), refB: (int, int, int), tol: int)
      returns (ea: int, eb: int)
      requires ColorReadable()
      requires Lines(a) == Lines(b) && LineLength(a) == LineLength(b)
      ensures IsCrop(a, ea, refA, tol) && IsCrop(b, eb, refB, tol)
    {
      var n := Lines(a);
      ea, eb := 0, 0;
      var aDone, bDone := false, false;
      var i := 0;
      while i < n && !(aDone && bDone)
        invariant 0 <= i
        invariant i == 0 || i <= n
        invariant Scanned(a, i, ea, aDone, refA, tol) && Scanned(b, i, eb, bDone, refB, tol)
      {
        ea, aDone, eb, bDone := ScanLine(a, b, i, ea, aDone, eb, bDone, refA, refB, tol);
        i := i + 1;
      }
      ScannedIsCrop(a, i, ea, aDone, refA, tol);
      ScannedIsCrop(b, i, eb, bDone, refB, tol);
    }

    /** `AutocropFrame(frame, tol)`: None when the frame cannot be fetched;
        otherwise (left, top, right, bottom), each the number of lines from
        that side, counted inward, that hold no pixel differing from the
        top-left (left, top) or bottom-right (right, bottom) pixel by more
        than `tol` in some component. Reading a pointer that was never set
        raises TypeError, like subscripting `None`. The frame comes from
        `_GetFrame` as written, so a request for the frame the cache names
        scans whatever the pointers hold, which after a failed display fetch
        is another frame's pixels. */
    method AutocropFrame(frame: int, tol: int) returns (r: Result<Option<(int, int, int, int)>>)
      requires clip.native.WellBehaved()
      requires displayClip != null ==> displayClip.native.WellBehaved()
      modifies this, clip, displayClip
      ensures initialized && old(currentFrame) == frame ==> unchanged(this)
      ensures r.Ok? && r.value.Some? && old(currentFrame) != frame ==> HoldsSource(ClampFrame(frame, framecount))
      ensures initialized && old(currentFrame) != frame ==>
                var n := ClampFrame(frame, framecount);
                (Available(n) ==> currentFrame == n && HoldsSource(n) && HoldsDisplay(n)) &&
                (!Available(n) ==> currentFrame == old(currentFrame))
      ensures r.Err? ==> r.error == TypeError && !ColorReadable()
      ensures r == Ok(None) <==> !initialized || (old(currentFrame) != frame && !Available(ClampFrame(frame, framecount)))
      ensures r.Ok? && r.value.Some? ==>
                ColorReadable() &&
                var tl := PixelColor(0, 0);
                var br := PixelColor(width - 1, height - 1);
                IsCrop(Left, r.value.value.0, tl, tol) && IsCrop(Top, r.value.value.1, tl, tol) &&
                IsCrop(Right, r.value.value.2, br, tol) && IsCrop(Bottom, r.value.value.3, br, tol)
    {
      var ok := GetFrameAsWritten(frame);
      if !ok {
        return Ok(None);
      }
      if !ColorReadable() {
        return Err(TypeError);
      }
      var crop := ScanFrame(tol);
      r := Ok(Some(crop));
    }

    /** Both passes of `AutocropFrame` over the frame in hand. */
    method ScanFrame(tol: int) returns (crop: (int, int, int, int))
      requires ColorReadable()
      ensures IsCrop(Left, crop.0, PixelColor(0, 0), tol) && IsCrop(Top, crop.1, PixelColor(0, 0), tol)
      ensures IsCrop(Right, crop.2, PixelColor(width - 1, height - 1), tol)
      ensures IsCrop(Bottom, crop.3, PixelColor(width - 1, height - 1), tol)
    {
      var tl := PixelColor(0, 0);
      var br := PixelColor(width - 1, height - 1);
      var top, bottom := ScanPair(Top, Bottom, tl, br, tol);
      var left, right := ScanPair(Left, Right, tl, br, tol);
      crop := (left, top, right, bottom);
    }

    // -------------------------------------------------------------------
    // DrawFrame (wxPython AvsClip)
    // -------------------------------------------------------------------

    /** `DrawFrame(frame, dc, offset, size)`: when the frame can be fetched and
        there is a device context, the bitmap handed to `wx.BitmapFromBuffer`:
        `h` rows of `w` RGB24 pixels copied line by line from the display
        frame, bottom line first, so that the picture comes out upright.
        Reading the display pointer before any was taken raises, like the
        `.contents` of `None`. As in `AutocropFrame`, the frame comes from
        `_GetFrame` as written, so the frame the cache names is drawn from
        whatever display pointer is held. */
    method DrawFrame(frame: int, hasDc: bool, size: Option<(nat, nat)>) returns (r: Result<Option<array<byte>>>)
      requires clip.native.WellBehaved()
      requires displayClip != null ==> displayClip.native.WellBehaved()
      modifies this, clip, displayClip
      ensures initialized && old(currentFrame) == frame ==> unchanged(this)
      ensures r.Ok? && r.value.Some? && old(currentFrame) != frame ==> HoldsDisplay(ClampFrame(frame, framecount))
      ensures initialized && old(currentFrame) != frame ==>
                var n := ClampFrame(frame, framecount);
                (Available(n) ==> currentFrame == n && HoldsSource(n) && HoldsDisplay(n)) &&
                (!Available(n) ==> currentFrame == old(currentFrame))
      ensures r.Err? ==> r.error == AttributeError && pBits == None
      ensures r.Ok? && r.value.Some? ==>
                var (w, h) := if size.Some? then size.value else (displayWidth, displayHeight);
                pBits.Some? && fresh(r.value.value) &&
                r.value.value[..] == Flipped(pBits.value, displayPitch, w * 3, h)
      ensures (r.Ok? && r.value.Some?) || r.Err? <==>
                hasDc && (initialized && (old(currentFrame) == frame || Available(ClampFrame(frame, framecount))))
    {
      var ok := GetFrameAsWritten(frame);
      if !ok || !hasDc {
        return Ok(None);
      }
      var (w, h) := if size.Some? then size.value else (displayWidth, displayHeight);
      if pBits.None? {
        return Err(AttributeError);
      }
      var buf := CopyFlipped(pBits.value, displayPitch, w * 3, h);
      r := Ok(Some(buf));
    }

    /** The row loop of `DrawFrame`: output row i, `w3` bytes, is copied from
        the source row (h-1-i) * pitch, the read address stepping back one
        pitch and the write address forward one row per iteration. */
    static method CopyFlipped(src: int -> byte, pitch: int, w3: nat, h: nat) returns (buf: array<byte>)
      ensures fresh(buf)
      ensures buf[..] == Flipped(src, pitch, w3, h)
    {
      buf := new byte[h * w3];
      var readAddr := (h - 1) * pitch;
      var writeAddr := 0;
      var i := 0;
      while i < h
        invariant 0 <= i <= h
        invariant writeAddr == i * w3 && writeAddr <= h * w3
        invariant readAddr == (h - 1 - i) * pitch
        invariant forall k :: 0 <= k < writeAddr ==> buf[k] == Flipped(src, pitch, w3, h)[k]
      {
        MulMonotone(i + 1, h, w3);
        CopyRow(buf, writeAddr, src, readAddr, w3);
        forall k | writeAddr <= k < writeAddr + w3
          ensures buf[k] == Flipped(src, pitch, w3, h)[k]
        {
          FlippedRow(src, pitch, w3, h, i, k - writeAddr);
        }
        readAddr := readAddr - pitch;
        writeAddr := writeAddr + w3;
        i := i + 1;
      }
      assert writeAddr == |Flipped(src, pitch, w3, h)|;
    }

    /** `ctypes.memmove` of one row: `len` bytes from `src` at `from` into the
        buffer at `at`; the bytes before `at` are left alone. */
    static method CopyRow(buf: array<byte>, at: nat, src: int -> byte, from: int, len: nat)
      requires at + len <= buf.Length
      modifies buf
      ensures forall k :: 0 <= k < at ==> buf[k] == old(buf[k])
      ensures forall k :: at <= k < at + len ==> buf[k] == src(from + (k - at))
    {
      forall k | at <= k < at + len {
        buf[k] := src(from + (k - at));
      }
    }
  }

  /** Frame n of a two-clip scenario: every plane has pitch n. */
  function ScenarioFrame(n: int): Frame {
    Frame(VideoFrameC(1, 0, n, 640, 480, 0, 0, n, 320, 240, 0, 0, 0),
          _ => n, _ => 640, _ => 480, _ => _ => 0 as byte)
  }

  /** The clip of the scenario: every source frame arrives. */
  function ScenarioSource(): NativeClip {
    NativeClip(n => Delivered(ScenarioFrame(n)), VideoInfoC(640, 480, 25, 1, 10, CS_YV12, 0, 0, 0, 0, 0))
  }

  /** The display clip of the scenario: frame 7 fails. */
  function ScenarioDisplay(): NativeClip {
    NativeClip(n => if n == 7 then EngineError("no frame") else Delivered(ScenarioFrame(n)),
               VideoInfoC(640, 480, 25, 1, 10, CS_YV12, 0, 0, 0, 0, 0))
  }

  /** A YV12 wrapper over the scenario's two clips, nothing fetched yet. */
  method ScenarioClip() returns (a: AvsClipBase)
    ensures fresh(a) && fresh(a.clip) && fresh(a.displayClip)
    ensures a.initialized && a.currentFrame == -1 && a.FrameCached()
    ensures a.clip.native == ScenarioSource() && a.displayClip != null && a.displayClip.native == ScenarioDisplay()
    ensures a.framecount == 10
    ensures a.clip != a.displayClip
  {
    var c := new Clip(ScenarioSource());
    var d := new Clip(ScenarioDisplay());
    a := new AvsClipBase(true, c, d, 10, 640, 480, 640, 480, true, false, false, false, false, 1, 1,
                         FormatQueries(12, _ => 1, _ => 1));
  }

  /** After fetching 5 and then 7, where only the display clip fails,
      `_GetFrame` as written claims frame 5 while holding frame 7's pitch. */
  method StaleCacheWitness() returns (claimed: int, heldPitch: int)
    ensures claimed == 5 && heldPitch == 7
  {
    var a := ScenarioClip();
    var ok := a.GetFrameAsWritten(5);
    ok := a.GetFrameAsWritten(7);
    claimed, heldPitch := a.currentFrame, a.pitch;
  }

  /** The same requests with the cache invalidated before each fetch: no
      frame is claimed after the failure. */
  method CorrectedCacheWitness() returns (claimed: int)
    ensures claimed == -1
  {
    var b := ScenarioClip();
    var ok := b.GetFrame(5);
    ok := b.GetFrame(7);
    claimed := b.currentFrame;
  }
}
