/** `AVS_VideoInfo` of avisynth.py: the C descriptor `AVS_VideoInfo_C` as a
    value, its pure bitmask predicates and audio arithmetic, and the Python
    wrapper object whose mutators rewrite the descriptor in place. */
module AvsVideoInfo {

  import opened Wrappers
  import opened AvsConstants

  const UINT_RANGE: int := 0x1_0000_0000

  /** A ctypes `c_uint` field stores its value modulo 2^32. */
  function WrapUint32(n: nat): (r: nat)
    ensures r < UINT_RANGE
    ensures n < UINT_RANGE ==> r == n
  {
    n % UINT_RANGE
  }

  /** The fields of `AVS_VideoInfo_C`, in declaration order. `pixel_type` and
      `image_type` are 32-bit masks; the frame-rate fields are `c_uint`. */
  datatype VideoInfoC = VideoInfoC(
    width: int,
    height: int,
    fpsNumerator: nat,
    fpsDenominator: nat,
    numFrames: int,
    pixelType: bv32,
    audioSamplesPerSecond: int,
    sampleType: int,
    numAudioSamples: int,
    nchannels: int,
    imageType: bv32)
  {
    predicate HasVideo() { width != 0 }
    predicate HasAudio() { audioSamplesPerSecond != 0 }
    predicate IsRgb() { pixelType & CS_BGR != 0 }
    predicate IsRgb24() {
      pixelType & CS_BGR24 == CS_BGR24 && pixelType & CS_SAMPLE_BITS_MASK == CS_SAMPLE_BITS_8
    }
    predicate IsRgb32() {
      pixelType & CS_BGR32 == CS_BGR32 && pixelType & CS_SAMPLE_BITS_MASK == CS_SAMPLE_BITS_8
    }
    predicate IsYuv() { pixelType & CS_YUV != 0 }
    predicate IsYuy2() { pixelType & CS_YUY2 == CS_YUY2 }
    predicate IsProperty(property: bv32) { pixelType & property == property }
    predicate IsPlanar() { pixelType & CS_PLANAR != 0 }
    predicate IsInterleaved() { pixelType & CS_INTERLEAVED != 0 }
    predicate IsFieldBased() { imageType & IT_FIELDBASED != 0 }
    predicate IsParityKnown() {
      imageType & IT_FIELDBASED != 0 && imageType & (IT_BFF | IT_TFF) != 0
    }
    predicate IsBff() { imageType & IT_BFF != 0 }
    predicate IsTff() { imageType & IT_TFF != 0 }

    /** `bytes_per_channel_sample`: the byte width of one sample of one channel,
        0 for a sample type that is none of the five formats. */
    function BytesPerChannelSample(): (r: nat)
      ensures r <= 4
      ensures r == 0 <==> sampleType !in {SAMPLE_INT8, SAMPLE_INT16, SAMPLE_INT24, SAMPLE_INT32, SAMPLE_FLOAT}
      ensures sampleType == SAMPLE_INT8 ==> r == 1
      ensures sampleType == SAMPLE_INT16 ==> r == 2
      ensures sampleType == SAMPLE_INT24 <==> r == 3
      ensures sampleType == SAMPLE_INT32 ==> r == 4
      ensures sampleType == SAMPLE_FLOAT ==> r == 4
    {
      if sampleType == SAMPLE_INT8 then 1          // sizeof(c_char)
      else if sampleType == SAMPLE_INT16 then 2    // sizeof(c_short)
      else if sampleType == SAMPLE_INT24 then 3
      else if sampleType == SAMPLE_INT32 then 4    // sizeof(c_int)
      else if sampleType == SAMPLE_FLOAT then 4    // sizeof(c_float)
      else 0
    }

    /** `audio_samples_from_frames` AS WRITTEN: it guards `fps_denominator` but
        divides by `fps_numerator`, so a clip with audio and a zero numerator
        raises ZeroDivisionError. Python 2 `/` on ints is floor division. */
    function AudioSamplesFromFramesAsWritten(frames: int): (r: Result<int>)
      ensures r.Err? <==> HasAudio() && fpsDenominator != 0 && fpsNumerator == 0
      ensures r.Err? ==> r.error == ZeroDivisionError
    {
      if HasAudio() && fpsDenominator != 0 then
        if fpsNumerator == 0 then Err(ZeroDivisionError)
        else Ok(frames * audioSamplesPerSecond * fpsDenominator / fpsNumerator)
      else Ok(0)
    }

    /** `audio_samples_from_frames` with the guard on the divisor, as AviSynth's
        own `AudioSamplesFromFrames` has it: never faults; 0 without audio or
        without a frame rate; otherwise the floor of frames*rate*den/num. */
    function AudioSamplesFromFrames(frames: int): (r: int)
      ensures !HasAudio() || fpsNumerator == 0 || fpsDenominator == 0 ==> r == 0
      ensures HasAudio() && fpsNumerator != 0 ==>
        r * fpsNumerator <= frames * audioSamplesPerSecond * fpsDenominator < (r + 1) * fpsNumerator
    {
      if HasAudio() && fpsNumerator != 0 then
        frames * audioSamplesPerSecond * fpsDenominator / fpsNumerator
      else 0
    }
  }

  // ---------------------------------------------------------------------
  // Facts about the predicates
  // ---------------------------------------------------------------------

  /** With a zero denominator the corrected helper returns 0, the frame-rate
      safety property the binding is meant to have. */
  lemma AudioSamplesZeroDenominator(vi: VideoInfoC, frames: int)
    requires vi.fpsDenominator == 0
    ensures vi.AudioSamplesFromFrames(frames) == 0
  {
  }

  /** Wherever the code as written does not fault, the corrected helper returns the same number. */
  lemma AudioSamplesCorrectionAgrees(vi: VideoInfoC, frames: int)
    ensures vi.AudioSamplesFromFramesAsWritten(frames).Ok? ==>
      vi.AudioSamplesFromFramesAsWritten(frames).value == vi.AudioSamplesFromFrames(frames)
  {
    if vi.HasAudio() && vi.fpsNumerator != 0 && vi.fpsDenominator == 0 {
      assert frames * vi.audioSamplesPerSecond * vi.fpsDenominator == 0;
    }
  }

  /** The fault of the code as written: audio at 44.1 kHz and the frame rate
      (0, 1) that `set_fps(0, d)` stores. */
  lemma AudioSamplesFaultWitness()
    ensures var vi := VideoInfoC(640, 480, 0, 1, 100, CS_YV12, 44100, SAMPLE_INT16, 0, 2, 0);
      vi.AudioSamplesFromFramesAsWritten(1) == Err(ZeroDivisionError) &&
      vi.AudioSamplesFromFrames(1) == 0
  {
  }

  /** The format predicates imply the coarse classes they refine. */
  lemma FormatImplications(vi: VideoInfoC)
    ensures vi.IsRgb24() ==> vi.IsRgb() && vi.IsInterleaved()
    ensures vi.IsRgb32() ==> vi.IsRgb() && vi.IsInterleaved()
    ensures vi.IsYuy2() ==> vi.IsYuv() && vi.IsInterleaved()
    ensures vi.IsParityKnown() <==> vi.IsFieldBased() && (vi.IsBff() || vi.IsTff())
  {
  }

  function WithPixelType(p: bv32): VideoInfoC {
    VideoInfoC(1, 1, 1, 1, 1, p, 0, 0, 0, 0, 0)
  }

  /** How the predicates classify named colourspaces: the sample-bits test keeps
      the 16-bit packed formats out of RGB24/RGB32, planar RGB is RGB but not
      RGB24, and Y8 is the one planar format that also carries the interleaved bit. */
  lemma NamedColorspaces()
    ensures WithPixelType(CS_BGR24).IsRgb24() && !WithPixelType(CS_BGR24).IsRgb32()
    ensures WithPixelType(CS_BGR32).IsRgb32() && !WithPixelType(CS_BGR32).IsRgb24()
    ensures WithPixelType(CS_BGR48).IsRgb() && !WithPixelType(CS_BGR48).IsRgb24()
    ensures WithPixelType(CS_BGR64).IsRgb() && !WithPixelType(CS_BGR64).IsRgb32()
    ensures WithPixelType(CS_RGBP).IsRgb() && WithPixelType(CS_RGBP).IsPlanar() && !WithPixelType(CS_RGBP).IsRgb24()
    ensures CS_RGBP & CS_SAMPLE_BITS_MASK == CS_SAMPLE_BITS_8 && CS_RGBP & CS_BGR24 != CS_BGR24
    ensures CS_BGR48 & CS_SAMPLE_BITS_MASK != CS_SAMPLE_BITS_8 && CS_BGR64 & CS_SAMPLE_BITS_MASK != CS_SAMPLE_BITS_8
    ensures WithPixelType(CS_YUY2).IsYuy2() && !WithPixelType(CS_YUY2).IsPlanar()
    ensures !WithPixelType(CS_YV12).IsYuy2() && WithPixelType(CS_YV12).IsPlanar() && WithPixelType(CS_YV12).IsYuv()
    ensures !WithPixelType(CS_Y8).IsYuy2() && WithPixelType(CS_Y8).IsPlanar() && WithPixelType(CS_Y8).IsInterleaved()
    ensures !WithPixelType(CS_YV411).IsYuy2() && !WithPixelType(CS_YV24).IsYuy2()
  {
  }

  // ---------------------------------------------------------------------
  // Greatest common divisor, for set_fps
  // ---------------------------------------------------------------------

  predicate Divides(k: nat, a: nat) {
    k > 0 && a % k == 0
  }

  /** g is the greatest common divisor of a and b: a common divisor that every
      common divisor divides. */
  ghost predicate IsGcd(g: nat, a: nat, b: nat) {
    Divides(g, a) && Divides(g, b) &&
    forall k :: Divides(k, a) && Divides(k, b) ==> Divides(k, g)
  }

  ghost predicate Coprime(a: nat, b: nat) {
    forall k :: Divides(k, a) && Divides(k, b) ==> k == 1
  }

  lemma DistribAdd(k: int, a: int, b: int)
    ensures k * (a + b) == k * a + k * b
  {
  }

  lemma DistribSub(k: int, a: int, b: int)
    ensures k * (a - b) == k * a - k * b
  {
  }

  lemma {:induction false} MulAtLeast(k: nat, d: nat)
    requires d >= 1
    ensures k * d >= k
    decreases d
  {
    if d > 1 {
      MulAtLeast(k, d - 1);
      DistribAdd(k, d - 1, 1);
    }
  }

  /** Quotient and remainder are unique: from a == k*q + r with 0 <= r < k. */
  lemma DivModUnique(k: int, a: int, q: int, r: int)
    requires k > 0 && a == k * q + r && 0 <= r < k
    ensures a / k == q && a % k == r
  {
    var q', r' := a / k, a % k;
    assert a == k * q' + r' && 0 <= r' < k;
    if q > q' {
      DistribSub(k, q, q');
      MulAtLeast(k, q - q');
    } else if q < q' {
      DistribSub(k, q', q);
      MulAtLeast(k, q' - q);
    }
  }

  /** Dividing by a positive number never makes a natural number larger. */
  lemma DivAtMost(a: nat, b: nat)
    requires b > 0
    ensures a / b <= a
  {
    var q := a / b;
    assert a == b * q + a % b;
    if q > 0 {
      MulAtLeast(q, b);
      assert b * q == q * b;
    }
  }

  lemma MultipleMod(k: nat, m: nat)
    requires k > 0
    ensures (k * m) % k == 0 && (k * m) / k == m
  {
    DivModUnique(k, k * m, m, 0);
  }

  lemma DividesSum(k: nat, a: nat, b: nat)
    requires Divides(k, a) && Divides(k, b)
    ensures Divides(k, a + b)
  {
    DistribAdd(k, a / k, b / k);
    MultipleMod(k, a / k + b / k);
  }

  lemma DividesMultiple(k: nat, a: nat, q: nat)
    requires Divides(k, a)
    ensures Divides(k, q * a)
  {
    MultipleMod(k, q * (a / k));
    assert q * a == k * (q * (a / k));
  }

  lemma DividesDifference(k: nat, a: nat, b: nat)
    requires Divides(k, a) && Divides(k, b) && b <= a
    ensures Divides(k, a - b)
  {
    var m := a / k - b / k;
    assert a == k * (a / k) && b == k * (b / k);
    DistribSub(k, a / k, b / k);
    assert m >= 0 by {
      if a / k < b / k {
        DistribSub(k, b / k, a / k);
        MulAtLeast(k, b / k - a / k);
      }
    }
    MultipleMod(k, m);
  }

  /** One step of Euclid's loop keeps the common divisors. */
  lemma EuclidStep(x: nat, y: nat, k: nat)
    requires y > 0
    ensures Divides(k, x) && Divides(k, y) <==> Divides(k, y) && Divides(k, x % y)
  {
    var q, r := x / y, x % y;
    assert x == q * y + r;
    if Divides(k, x) && Divides(k, y) {
      DividesMultiple(k, y, q);
      DividesDifference(k, x, q * y);
    }
    if Divides(k, y) && Divides(k, r) {
      DividesMultiple(k, y, q);
      DividesSum(k, q * y, r);
    }
  }

  lemma DividesLe(k: nat, a: nat)
    requires Divides(k, a) && a > 0
    ensures k <= a
  {
    assert a == k * (a / k);
    MulAtLeast(k, a / k);
  }

  /** The `while y: x, y = y, x % y` loop of set_fps: its final x is the gcd. */
  method EuclidGcd(numerator: nat, denominator: nat) returns (x: nat)
    requires numerator > 0 && denominator > 0
    ensures IsGcd(x, numerator, denominator)
  {
    x := numerator;
    var y: nat := denominator;
    while y != 0
      invariant x > 0
      invariant forall k :: Divides(k, x) && Divides(k, y) <==> Divides(k, numerator) && Divides(k, denominator)
      decreases y
    {
      forall k | true
        ensures Divides(k, x) && Divides(k, y) <==> Divides(k, y) && Divides(k, x % y)
      {
        EuclidStep(x, y, k);
      }
      x, y := y, x % y;
    }
    assert Divides(x, x) by { MultipleMod(x, 1); }
    assert Divides(x, 0);
    forall k | Divides(k, numerator) && Divides(k, denominator)
      ensures Divides(k, x)
    {
      assert Divides(k, 0);
    }
  }

  /** Dividing both by the gcd gives a coprime pair with the same ratio. */
  lemma ReducedFraction(n: nat, d: nat, g: nat)
    requires n > 0 && d > 0 && IsGcd(g, n, d)
    ensures n / g > 0 && d / g > 0
    ensures Coprime(n / g, d / g)
    ensures (n / g) * d == (d / g) * n
  {
    var a, b := n / g, d / g;
    assert n == g * a && d == g * b;
    forall k: nat | Divides(k, a) && Divides(k, b)
      ensures k == 1
    {
      var a', b' := a / k, b / k;
      assert a == k * a' && b == k * b';
      assert n == (g * k) * a' by { assert n == g * (k * a'); }
      assert d == (g * k) * b' by { assert d == g * (k * b'); }
      MultipleMod(g * k, a');
      MultipleMod(g * k, b');
      assert Divides(g * k, g);
      DividesLe(g * k, g);
      assert g * k <= g * 1;
    }
    assert a * d == a * (g * b) == (g * a) * b == n * b;
  }

  lemma OrSetsBits(a: bv32, p: bv32)
    ensures (a | p) & p == p
    ensures (a | p) & !p == a & !p
  {
  }

  lemma AndNotClearsBits(a: bv32, p: bv32)
    ensures (a & !p) & p == 0
    ensures (a & !p) & !p == a & !p
  {
  }

  // ---------------------------------------------------------------------
  // The Python wrapper object and its mutators
  // ---------------------------------------------------------------------

  /** `AVS_VideoInfo`: `snapshot` holds the attributes its constructor copies
      out of the C struct (`vi.width`, `vi.fps_numerator`, ...), `contents`
      the struct itself, which the mutators rewrite; the mutators do not
      refresh the snapshot. */
  class VideoInfo {
    const snapshot: VideoInfoC
    var contents: VideoInfoC

    constructor (vi: VideoInfoC)
      ensures snapshot == vi && contents == vi
    {
      snapshot := vi;
      contents := vi;
    }

    /** `set_property`: sets the given bits of `image_type`. */
    method SetProperty(property: bv32)
      modifies this
      ensures contents == old(contents).(imageType := old(contents.imageType) | property)
      ensures contents.imageType & property == property
    {
      var t := contents.imageType | property;
      OrSetsBits(contents.imageType, property);
      contents := contents.(imageType := t);
    }

    /** `clear_property`: clears the given bits of `image_type`. */
    method ClearProperty(property: bv32)
      modifies this
      ensures contents == old(contents).(imageType := old(contents.imageType) & !property)
      ensures contents.imageType & property == 0
    {
      var t := contents.imageType & !property;
      AndNotClearsBits(contents.imageType, property);
      contents := contents.(imageType := t);
    }

    /** `set_field_based`: sets or clears the field-based bit and nothing else. */
    method SetFieldBased(isFieldBased: bool)
      modifies this
      ensures contents.IsFieldBased() == isFieldBased
      ensures contents.imageType & !IT_FIELDBASED == old(contents.imageType) & !IT_FIELDBASED
      ensures contents == old(contents).(imageType := contents.imageType)
    {
      if isFieldBased {
        contents := contents.(imageType := contents.imageType | IT_FIELDBASED);
      } else {
        contents := contents.(imageType := contents.imageType & !IT_FIELDBASED);
      }
    }

    /** `set_fps`: (0, 1) when either argument is 0, otherwise both divided by
        their gcd; each stored through a `c_uint` field. */
    method SetFps(numerator: nat, denominator: nat)
      modifies this
      ensures numerator == 0 || denominator == 0 ==>
        contents == old(contents).(fpsNumerator := 0, fpsDenominator := 1)
      ensures numerator != 0 && denominator != 0 ==> exists g ::
        IsGcd(g, numerator, denominator) &&
        contents == old(contents).(fpsNumerator := WrapUint32(numerator / g),
                                   fpsDenominator := WrapUint32(denominator / g))
      ensures numerator != 0 && denominator != 0 && numerator < UINT_RANGE && denominator < UINT_RANGE ==>
        contents.fpsNumerator > 0 && contents.fpsDenominator > 0 &&
        Coprime(contents.fpsNumerator, contents.fpsDenominator) &&
        contents.fpsNumerator * denominator == contents.fpsDenominator * numerator
    {
      if numerator == 0 || denominator == 0 {
        contents := contents.(fpsNumerator := 0, fpsDenominator := 1);
      } else {
        var x := EuclidGcd(numerator, denominator);
        ReducedFraction(numerator, denominator, x);
        contents := contents.(fpsNumerator := WrapUint32(numerator / x),
                              fpsDenominator := WrapUint32(denominator / x));
        if numerator < UINT_RANGE && denominator < UINT_RANGE {
          DivAtMost(numerator, x);
          DivAtMost(denominator, x);
        }
      }
    }
  }
}
