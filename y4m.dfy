/** The yuv4mpeg2 text of pyavs.py: the stream header `Y4MHeader` builds from
    a clip and its arguments, the per-frame header `RawFrame` puts in front of
    the raw data, and a reader for the stream header that recovers what was
    written. */
module Y4m {

  import opened Wrappers
  import opened Text

  // ---------------------------------------------------------------------
  // Arguments
  // ---------------------------------------------------------------------

  /** A `width` or `height` argument: omitted, a number, or a text such as
      "x2", "*2" or "/2" scaling the clip's own size. */
  datatype SizeArg = Default | Given(n: int) | Scaled(text: string)

  /** What `Y4MHeader` reads from the clip: its size, whether it is flagged
      interlaced, the field order of its descriptor (`is_bff`), its frame rate
      and its colourspace name. */
  datatype ClipProps = ClipProps(
    width: int,
    height: int,
    interlaced: bool,
    bff: bool,
    fpsNumerator: int,
    fpsDenominator: int,
    colorspace: string)

  /** The optional arguments of `Y4MHeader`. */
  datatype HeaderArgs = HeaderArgs(
    colorspace: Option<string>,
    depth: Option<int>,
    width: SizeArg,
    height: SizeArg,
    sar: string,
    x: Option<string>)

  /** The defaults: no colourspace, depth or tag, the clip's size, SAR 0:0. */
  const DEFAULT_ARGS: HeaderArgs := HeaderArgs(None, None, Default, Default, "0:0", None)

  // ---------------------------------------------------------------------
  // Sizes: re.match(r'([x*/])(\d+)', text)
  // ---------------------------------------------------------------------

  predicate IsScaleOp(c: char) { c == 'x' || c == '*' || c == '/' }

  /** Whether `text` starts with an operator and a digit, as the regex demands. */
  predicate ScaleMatches(text: string) {
    |text| >= 2 && IsScaleOp(text[0]) && IsDigit(text[1])
  }

  /** A size text applied to the clip's size: '/' divides (floor division, a
      zero divisor raises), 'x' and '*' multiply; what follows the digits is
      ignored; a text the regex does not match is refused. */
  function ScaleSize(text: string, size: int): (r: Result<int>)
    ensures !ScaleMatches(text) <==> r == Err(InvalidString(text))
    ensures r == Err(ZeroDivisionError) <==>
              ScaleMatches(text) && text[0] == '/' && DigitsValue(DigitRun(text[1..])) == 0
    ensures r.Err? ==> r == Err(InvalidString(text)) || r == Err(ZeroDivisionError)
  {
    if ScaleMatches(text) then
      var n := DigitsValue(DigitRun(text[1..]));
      if text[0] == '/' then
        if n == 0 then Err(ZeroDivisionError) else Ok(size / n)
      else Ok(size * n)
    else Err(InvalidString(text))
  }

  /** Scaling by a written number does what the operator says, whatever text
      comes after the number, as long as it does not start with a digit. */
  lemma ScaleByDecimal(op: char, k: nat, rest: string, size: int)
    requires IsScaleOp(op)
    requires |rest| == 0 || !IsDigit(rest[0])
    ensures var r := ScaleSize([op] + NatToDecimal(k) + rest, size);
      (op != '/' ==> r == Ok(size * k)) &&
      (op == '/' && k > 0 ==> r == Ok(size / k)) &&
      (op == '/' && k == 0 ==> r == Err(ZeroDivisionError))
  {
    var d := NatToDecimal(k);
    var text := [op] + d + rest;
    assert text[1..] == d + rest;
    DigitRunOfDecimal(d, rest);
    DecimalRoundTrip(k);
  }

  /** A size argument resolved against the clip's size. */
  function ResolveSize(arg: SizeArg, size: int): (r: Result<int>)
    ensures arg.Default? ==> r == Ok(size)
    ensures arg.Given? ==> r == Ok(arg.n)
    ensures arg.Scaled? ==> r == ScaleSize(arg.text, size)
  {
    match arg
    case Default => Ok(size)
    case Given(n) => Ok(n)
    case Scaled(text) => ScaleSize(text, size)
  }

  // ---------------------------------------------------------------------
  // The stream header
  // ---------------------------------------------------------------------

  /** The colourspaces yuv4mpeg2 can name, and their names there. */
  function Y4mColorspace(name: string): (r: Option<string>)
    ensures r.Some? <==> name in {"YV24", "YV16", "YV12", "YV411", "Y8"}
    ensures r.Some? ==> r.value in {"444", "422", "420", "411", "mono"}
  {
    if name == "YV24" then Some("444")
    else if name == "YV16" then Some("422")
    else if name == "YV12" then Some("420")
    else if name == "YV411" then Some("411")
    else if name == "Y8" then Some("mono")
    else None
  }

  /** The values a stream header carries, in the order it writes them. */
  datatype HeaderFields = HeaderFields(
    width: int,
    height: int,
    interlace: char,
    fpsNumerator: int,
    fpsDenominator: int,
    sar: string,
    colorspace: string,
    x: Option<string>)

  /** The interlacing letter: 'p' for a progressive clip, else 'b' when the
      descriptor says bottom field first, 't' otherwise. */
  function InterlaceChar(interlaced: bool, bff: bool): (c: char)
    ensures c == 'p' <==> !interlaced
    ensures c == 'b' <==> interlaced && bff
    ensures c == 't' <==> interlaced && !bff
  {
    if interlaced then (if bff then 'b' else 't') else 'p'
  }

  /** The colourspace field: the given one, or the clip's name translated (a
      clip yuv4mpeg2 cannot name is refused), followed by 'p' and the depth
      when a non-zero depth is given. */
  function ColorspaceField(clip: ClipProps, colorspace: Option<string>, depth: Option<int>): (r: Result<string>)
    ensures r.Err? <==> colorspace.None? && Y4mColorspace(clip.colorspace).None?
    ensures r.Err? ==> r.error == BadColorspace(clip.colorspace)
    ensures r.Ok? ==>
              var base := if colorspace.Some? then colorspace.value else Y4mColorspace(clip.colorspace).value;
              r.value == if depth.Some? && depth.value != 0 then base + "p" + IntToDecimal(depth.value) else base
  {
    var base :=
      if colorspace.Some? then Ok(colorspace.value)
      else if Y4mColorspace(clip.colorspace).Some? then Ok(Y4mColorspace(clip.colorspace).value)
      else Err(BadColorspace(clip.colorspace));
    match base
    case Err(e) => Err(e)
    case Ok(cs) =>
      if depth.Some? && depth.value != 0 then Ok(cs + "p" + IntToDecimal(depth.value)) else Ok(cs)
  }

  /** Everything `Y4MHeader` decides, with its errors in the order it raises
      them: the width, then the height, then the colourspace. */
  function HeaderFieldsOf(clip: ClipProps, args: HeaderArgs): (r: Result<HeaderFields>)
    ensures ResolveSize(args.width, clip.width).Err? ==> r == Err(ResolveSize(args.width, clip.width).error)
    ensures ResolveSize(args.width, clip.width).Ok? && ResolveSize(args.height, clip.height).Err? ==>
              r == Err(ResolveSize(args.height, clip.height).error)
    ensures r.Ok? <==>
              ResolveSize(args.width, clip.width).Ok? && ResolveSize(args.height, clip.height).Ok? &&
              ColorspaceField(clip, args.colorspace, args.depth).Ok?
    ensures r.Ok? ==>
              r.value.width == ResolveSize(args.width, clip.width).value &&
              r.value.height == ResolveSize(args.height, clip.height).value &&
              r.value.interlace == InterlaceChar(clip.interlaced, clip.bff) &&
              r.value.fpsNumerator == clip.fpsNumerator && r.value.fpsDenominator == clip.fpsDenominator &&
              r.value.sar == args.sar && r.value.x == args.x &&
              r.value.colorspace == ColorspaceField(clip, args.colorspace, args.depth).value
  {
    match ResolveSize(args.width, clip.width)
    case Err(e) => Err(e)
    case Ok(w) =>
      match ResolveSize(args.height, clip.height)
      case Err(e) => Err(e)
      case Ok(h) =>
        match ColorspaceField(clip, args.colorspace, args.depth)
        case Err(e) => Err(e)
        case Ok(cs) =>
          Ok(HeaderFields(w, h, InterlaceChar(clip.interlaced, clip.bff),
                          clip.fpsNumerator, clip.fpsDenominator, args.sar, cs, args.x))
  }

  /** The header's tokens: the magic word, then W, H, I, F, A and C with their
      values, and X with the tag text when one is given. */
  function HeaderTokens(f: HeaderFields): (r: seq<string>)
    ensures |r| == (if f.x.Some? then 8 else 7)
  {
    ["YUV4MPEG2",
     "W" + IntToDecimal(f.width),
     "H" + IntToDecimal(f.height),
     "I" + [f.interlace],
     "F" + IntToDecimal(f.fpsNumerator) + ":" + IntToDecimal(f.fpsDenominator),
     "A" + f.sar,
     "C" + f.colorspace] +
    (if f.x.Some? then ["X" + f.x.value] else [])
  }

  /** 'YUV4MPEG2 W{0} H{1} I{2} F{3}:{4} A{5} C{6}{7}\n' filled in, where `{7}`
      is ' X' and the tag text when one is given: the tokens one space apart,
      then a newline. */
  function FormatHeader(f: HeaderFields): (r: string)
    ensures |r| > 0 && r[|r| - 1] == '\n'
  {
    Join(HeaderTokens(f), ' ') + "\n"
  }

  /** `Y4MHeader`: the header line, or the exception it raises. */
  function Y4MHeader(clip: ClipProps, args: HeaderArgs): (r: Result<string>)
    ensures r.Err? <==> HeaderFieldsOf(clip, args).Err?
    ensures r.Err? ==> r.error == HeaderFieldsOf(clip, args).error
    ensures r.Ok? ==> r.value == FormatHeader(HeaderFieldsOf(clip, args).value)
  {
    match HeaderFieldsOf(clip, args)
    case Err(e) => Err(e)
    case Ok(f) => Ok(FormatHeader(f))
  }

  // ---------------------------------------------------------------------
  // Reading a stream header back
  // ---------------------------------------------------------------------

  /** The text after a one-letter tag, if the token carries that tag. */
  function Tagged(tag: char, token: string): (r: Option<string>)
    ensures r.Some? <==> |token| >= 1 && token[0] == tag
    ensures r.Some? ==> [tag] + r.value == token
  {
    if |token| >= 1 && token[0] == tag then Some(token[1..]) else None
  }

  /** A `F{num}:{den}` body: two integers around one colon. */
  function ParseRate(body: string): (r: Option<(int, int)>)
    ensures r.Some? ==> IntToDecimal(r.value.0) + ":" + IntToDecimal(r.value.1) == body
  {
    var parts := Split(body, ':');
    if |parts| != 2 then None
    else
      match (ParseInt(parts[0]), ParseInt(parts[1]))
      case (Some(n), Some(d)) =>
        JoinSplit(body, ':');
        assert Join(parts, ':') == parts[0] + [':'] + Join(parts[1..], ':');
        Some((n, d))
      case _ => None
  }

  /** Reads the tokens of a header: the magic word, then the W H I F A C
      tokens in that order, and an optional X token. */
  function ParseTokens(t: seq<string>): (r: Option<HeaderFields>)
  {
    if !(|t| == 7 || |t| == 8) || t[0] != "YUV4MPEG2" then None
    else
      var w, h, i, fr := Tagged('W', t[1]), Tagged('H', t[2]), Tagged('I', t[3]), Tagged('F', t[4]);
      var a, c := Tagged('A', t[5]), Tagged('C', t[6]);
      var x := if |t| == 8 then Tagged('X', t[7]) else None;
      if w.None? || h.None? || i.None? || fr.None? || a.None? || c.None? then None
      else if |i.value| != 1 || (|t| == 8 && x.None?) then None
      else
        var wv, hv, rate := ParseInt(w.value), ParseInt(h.value), ParseRate(fr.value);
        if wv.None? || hv.None? || rate.None? then None
        else Some(HeaderFields(wv.value, hv.value, i.value[0], rate.value.0, rate.value.1, a.value, c.value, x))
  }

  /** Reads a header line: space-separated tokens ending in a newline. */
  function ParseHeader(line: string): (r: Option<HeaderFields>)
  {
    if |line| == 0 || line[|line| - 1] != '\n' then None
    else ParseTokens(Split(line[..|line| - 1], ' '))
  }

  /** Fields whose text cannot be confused with the separator. */
  predicate Writable(f: HeaderFields) {
    f.interlace != ' ' && ' ' !in f.sar && ' ' !in f.colorspace && (f.x.Some? ==> ' ' !in f.x.value)
  }

  /** The frame-rate token reads back to the rate written. */
  lemma RateRoundTrip(n: int, d: int)
    ensures ParseRate(IntToDecimal(n) + ":" + IntToDecimal(d)) == Some((n, d))
  {
    var num, den := IntToDecimal(n), IntToDecimal(d);
    DecimalHasNo(n, ':');
    DecimalHasNo(d, ':');
    SplitJoin([num, den], ':');
    assert Join([num, den], ':') == num + [':'] + den;
    ParseIntRoundTrip(n);
    ParseIntRoundTrip(d);
  }

  /** The tokens of a header read back to its fields. */
  lemma TokensRoundTrip(f: HeaderFields)
    ensures ParseTokens(HeaderTokens(f)) == Some(f)
  {
    var t := HeaderTokens(f);
    assert t[1][1..] == IntToDecimal(f.width);
    assert t[2][1..] == IntToDecimal(f.height);
    assert t[4][1..] == IntToDecimal(f.fpsNumerator) + ":" + IntToDecimal(f.fpsDenominator);
    ParseIntRoundTrip(f.width);
    ParseIntRoundTrip(f.height);
    RateRoundTrip(f.fpsNumerator, f.fpsDenominator);
  }

  /** Reading back a written header gives its fields back. */
  lemma HeaderRoundTrip(f: HeaderFields)
    requires Writable(f)
    ensures ParseHeader(FormatHeader(f)) == Some(f)
  {
    var t := HeaderTokens(f);
    forall k | 0 <= k < |t|
      ensures ' ' !in t[k]
    {
      DecimalHasNo(f.width, ' ');
      DecimalHasNo(f.height, ' ');
      DecimalHasNo(f.fpsNumerator, ' ');
      DecimalHasNo(f.fpsDenominator, ' ');
    }
    SplitJoin(t, ' ');
    var line := FormatHeader(f);
    assert line[..|line| - 1] == Join(t, ' ');
    TokensRoundTrip(f);
  }

  /** The default arguments give the clip's own size, 0:0 and the translated
      colourspace, and the header reads back to exactly that. */
  lemma DefaultHeader(clip: ClipProps)
    requires clip.colorspace == "YV12"
    ensures var f := HeaderFields(clip.width, clip.height, InterlaceChar(clip.interlaced, clip.bff),
                                  clip.fpsNumerator, clip.fpsDenominator, "0:0", "420", None);
      Y4MHeader(clip, DEFAULT_ARGS) == Ok(FormatHeader(f)) &&
      ParseHeader(FormatHeader(f)) == Some(f)
  {
    var f := HeaderFields(clip.width, clip.height, InterlaceChar(clip.interlaced, clip.bff),
                          clip.fpsNumerator, clip.fpsDenominator, "0:0", "420", None);
    HeaderRoundTrip(f);
  }

  // ---------------------------------------------------------------------
  // The frame header
  // ---------------------------------------------------------------------

  /** The `y4m_header` argument of `RawFrame`: False, a tag text, or any other
      value. */
  datatype FrameHeaderArg = NoFrameHeader | FrameTag(x: string) | PlainFrameHeader

  /** 'FRAME{0}\n' with ' X' and the tag when one is given; nothing for False. */
  function FrameHeader(arg: FrameHeaderArg): (r: string)
    ensures arg.NoFrameHeader? <==> r == ""
    ensures arg.PlainFrameHeader? ==> r == "FRAME\n"
    ensures arg.FrameTag? ==> r == "FRAME X" + arg.x + "\n"
  {
    match arg
    case NoFrameHeader => ""
    case PlainFrameHeader => "FRAME\n"
    case FrameTag(x) => "FRAME X" + x + "\n"
  }
}
