/**
 * Display colours of cart items: the colour derived from a product name
 * (`Agent.generate_color_from_title`) and the text colour chosen for a
 * background (`Agent.get_text_color`).
 */
module Colors {
  import opened Wrappers
  import opened Text

  type Byte = x: int | 0 <= x < 256

  /** The first three bytes of the MD5 digest of a name, i.e. the first six digits of `hexdigest()`. */
  datatype Rgb = Rgb(r: Byte, g: Byte, b: Byte)

  /** Derived channels are raised to at least this value so the colour is never too dark. */
  const MinChannel: Byte := 100
  const Black := "#000000"
  const White := "#FFFFFF"

  /** `max(x, 100)`. */
  function Lighten(x: Byte): (y: Byte)
    ensures y >= MinChannel && y >= x
    ensures y == x || y == MinChannel
  {
    if x < MinChannel then MinChannel else x
  }

  predicate IsLowerHex(c: char)
  {
    '0' <= c <= '9' || 'a' <= c <= 'f'
  }

  function HexDigit(d: int): (c: char)
    requires 0 <= d < 16
    ensures IsLowerHex(c)
  {
    "0123456789abcdef"[d]
  }

  /** `f'{n:02x}'`. */
  function Hex2(n: Byte): (s: string)
    ensures |s| == 2 && IsLowerHex(s[0]) && IsLowerHex(s[1])
  {
    [HexDigit(n / 16), HexDigit(n % 16)]
  }

  /** The value of one hexadecimal digit, either case, as `int(c, 16)` reads it. */
  function HexValue(c: char): (v: Option<int>)
    ensures v.Some? ==> 0 <= v.value < 16
  {
    if '0' <= c <= '9' then Some(c as int - '0' as int)
    else if 'a' <= c <= 'f' then Some(c as int - 'a' as int + 10)
    else if 'A' <= c <= 'F' then Some(c as int - 'A' as int + 10)
    else None
  }

  /** `int(s, 16)` for a two-character slice; None stands for the ValueError. */
  function ParseHex2(s: string): (v: Option<Byte>)
    requires |s| == 2
    ensures v.Some? <==> HexValue(s[0]).Some? && HexValue(s[1]).Some?
  {
    match (HexValue(s[0]), HexValue(s[1]))
    case (Some(hi), Some(lo)) => Some(hi * 16 + lo)
    case _ => None
  }

  lemma HexDigitValue(d: int)
    requires 0 <= d < 16
    ensures HexValue(HexDigit(d)) == Some(d)
  {
  }

  /** Reading back a two-digit hex rendering gives the byte. */
  lemma ParseHex2RoundTrip(n: Byte)
    ensures ParseHex2(Hex2(n)) == Some(n)
  {
    HexDigitValue(n / 16);
    HexDigitValue(n % 16);
  }

  /** The three channels in the first six characters of `h`, when all are hex digits. */
  function ParseRgb(h: string): (v: Option<Rgb>)
    requires |h| >= 6
    ensures v.Some? <==> forall i :: 0 <= i < 6 ==> HexValue(h[i]).Some?
  {
    match (ParseHex2(h[0..2]), ParseHex2(h[2..4]), ParseHex2(h[4..6]))
    case (Some(r), Some(g), Some(b)) => Some(Rgb(r, g, b))
    case _ => None
  }

  /**
   * `generate_color_from_title(title)`: `md5` stands for the digest, which this
   * model does not compute. Each channel is raised to at least 100 and the colour
   * is written as `#` and six lower-case hex digits.
   */
  function GenerateColor(title: string, md5: string -> Rgb): (color: string)
    ensures |color| == 7 && color[0] == '#'
    ensures forall i :: 1 <= i < 7 ==> IsLowerHex(color[i])
  {
    var h := md5(title);
    "#" + Hex2(Lighten(h.r)) + Hex2(Lighten(h.g)) + Hex2(Lighten(h.b))
  }

  /** The six digits of a derived colour read back as the lightened digest channels. */
  lemma GeneratedChannels(title: string, md5: string -> Rgb)
    ensures var h := md5(title);
            ParseRgb(GenerateColor(title, md5)[1..]) == Some(Rgb(Lighten(h.r), Lighten(h.g), Lighten(h.b)))
  {
    var h := md5(title);
    var r, g, b := Hex2(Lighten(h.r)), Hex2(Lighten(h.g)), Hex2(Lighten(h.b));
    var digits := GenerateColor(title, md5)[1..];
    assert digits == r + g + b;
    ParseHex2RoundTrip(Lighten(h.r));
    ParseHex2RoundTrip(Lighten(h.g));
    ParseHex2RoundTrip(Lighten(h.b));
    assert digits[0..2] == r && digits[2..4] == g && digits[4..6] == b;
  }

  /** The perceived-brightness test, in the source's own terms: `(0.299r + 0.587g + 0.114b) / 255 > 0.5`. */
  predicate IsLight(c: Rgb)
  {
    (0.299 * c.r as real + 0.587 * c.g as real + 0.114 * c.b as real) / 255.0 > 0.5
  }

  /** The brightness test is the integer comparison `299r + 587g + 114b > 127500`. */
  lemma IsLightInteger(c: Rgb)
    ensures IsLight(c) <==> 299 * c.r + 587 * c.g + 114 * c.b > 127500
  {
  }

  /** The string `get_text_color` examines: leading `#`s removed, then surrounding whitespace. */
  function ColorDigits(bg: string): string
  {
    Strip(StripHashes(bg))
  }

  /**
   * `get_text_color(bg)`: black text on light or unreadable backgrounds, white on dark ones.
   */
  function TextColor(bg: string): (text: string)
    ensures text == Black || text == White
    ensures var h := ColorDigits(bg);
            text == White <==> |h| >= 6 && ParseRgb(h).Some?
                               && 299 * ParseRgb(h).value.r + 587 * ParseRgb(h).value.g + 114 * ParseRgb(h).value.b <= 127500
  {
    var h := ColorDigits(bg);
    if h == "" || |h| < 6 then Black
    else match ParseRgb(h)
      case None => Black
      case Some(c) =>
        IsLightInteger(c);
        if IsLight(c) then Black else White
  }

  /** The derived colour reaches `get_text_color` intact: its digits are exactly the six written. */
  lemma GeneratedDigits(title: string, md5: string -> Rgb)
    ensures ColorDigits(GenerateColor(title, md5)) == GenerateColor(title, md5)[1..]
  {
    var color := GenerateColor(title, md5);
    var d := StripHashes(color);
    assert color[0] == '#' && !(color[1] == '#');
    assert d == color[1..] by {
      assert |color| - |d| >= 1;
      assert !(|color| - |d| > 1);
    }
    StripKeeps(d);
  }

  /** The text colour for a derived background follows from the lightened channels alone. */
  lemma GeneratedTextColor(title: string, md5: string -> Rgb)
    ensures var h := md5(title);
            TextColor(GenerateColor(title, md5))
            == if 299 * Lighten(h.r) + 587 * Lighten(h.g) + 114 * Lighten(h.b) > 127500 then Black else White
  {
    GeneratedDigits(title, md5);
    GeneratedChannels(title, md5);
  }

  /** Black text on a white background. */
  lemma TextOnWhite()
    ensures TextColor("#FFFFFF") == Black
  {
    var s := "#FFFFFF";
    assert StripHashes(s) == s[1..];
    StripKeeps(s[1..]);
    assert ParseRgb(s[1..]) == Some(Rgb(255, 255, 255));
  }

  /** White text on a black background. */
  lemma TextOnBlack()
    ensures TextColor("#000000") == White
  {
    var s := "#000000";
    assert StripHashes(s) == s[1..];
    StripKeeps(s[1..]);
    assert ParseRgb(s[1..]) == Some(Rgb(0, 0, 0));
  }

  /** Black text whenever the colour is shorter than six characters, `""` and `"#1"` among them. */
  lemma TextOnShort(bg: string)
    requires |bg| < 6
    ensures TextColor(bg) == Black
  {
    assert |ColorDigits(bg)| <= |StripHashes(bg)| <= |bg|;
  }

  /** Black text whenever one of the first six digits is not hexadecimal (the ValueError of `int`). */
  lemma TextOnNonHex(bg: string)
    requires |ColorDigits(bg)| >= 6
    requires exists i :: 0 <= i < 6 && HexValue(ColorDigits(bg)[i]).None?
    ensures TextColor(bg) == Black
  {
  }
}
