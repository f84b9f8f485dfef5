/**
 * The immutable RGBA colour `Color` of src/drawer/Color.ts. Channels are
 * reals nominally in [0, 1]; `ToStyle` clamps them when serialising.
 */
module Colors {
  import opened Wrappers
  import opened Points

  /** `new Color(r, g, b, a)`; the source's defaults are 0, 0, 0 and 1. */
  datatype Color = Color(r: real, g: real, b: real, a: real)

  /** `new Color()` */
  const Default := Color(0.0, 0.0, 0.0, 1.0)

  const White := Color(1.0, 1.0, 1.0, 1.0)
  const Black := Color(0.0, 0.0, 0.0, 1.0)
  const Red := Color(1.0, 0.0, 0.0, 1.0)
  const Green := Color(0.0, 1.0, 0.0, 1.0)
  const Blue := Color(0.0, 0.0, 1.0, 1.0)
  const Yellow := Color(1.0, 1.0, 0.0, 1.0)
  const Cyan := Color(0.0, 1.0, 1.0, 1.0)
  const Magenta := Color(1.0, 0.0, 1.0, 1.0)

  /** `c.lerp(other, t)`, channel by channel, alpha included. */
  function Lerp(c: Color, other: Color, t: real): (r: Color)
    ensures t == 0.0 ==> r == c
    ensures t == 1.0 ==> r == other
  {
    Color(c.r + (other.r - c.r) * t,
          c.g + (other.g - c.g) * t,
          c.b + (other.b - c.b) * t,
          c.a + (other.a - c.a) * t)
  }

  /** `c.mul(value)`: the colour channels are scaled, alpha is kept. */
  function Mul(c: Color, value: real): (r: Color)
    ensures r.a == c.a
    ensures r.r == c.r * value && r.g == c.g * value && r.b == c.b * value
  {
    Color(c.r * value, c.g * value, c.b * value, c.a)
  }

  /** `c.opacity(o)`: a copy with only alpha replaced. */
  function Opacity(c: Color, opacity: real): (r: Color)
    ensures r.a == opacity
    ensures r.r == c.r && r.g == c.g && r.b == c.b
  {
    Color(c.r, c.g, c.b, opacity)
  }

  /** `Math.max(Math.min(v, 1), 0)` */
  function Clamp01(v: real): (r: real)
    ensures 0.0 <= r <= 1.0
    ensures 0.0 <= v <= 1.0 ==> r == v
    ensures v < 0.0 ==> r == 0.0
    ensures v > 1.0 ==> r == 1.0
  {
    MaxReal(MinReal(v, 1.0), 0.0)
  }

  /** The four numbers `toStyle` prints into `rgba(r, g, b, a)`. */
  datatype StyleChannels = StyleChannels(r: int, g: int, b: int, a: real)

  /** One colour channel of `toStyle`: `floor(clamp(v) * 255)`. */
  function Channel255(v: real): (r: int)
    ensures 0 <= r <= 255
    ensures r as real <= Clamp01(v) * 255.0 < r as real + 1.0
  {
    FloorReal(Clamp01(v) * 255.0)
  }

  /** `c.toStyle()`, as its numbers; the number-to-text formatting is not modelled. */
  function ToStyle(c: Color): (s: StyleChannels)
    ensures 0 <= s.r <= 255 && 0 <= s.g <= 255 && 0 <= s.b <= 255
    ensures s.r == Channel255(c.r) && s.g == Channel255(c.g) && s.b == Channel255(c.b)
    ensures 0.0 <= s.a <= 1.0
    ensures s.a == Clamp01(c.a)
  {
    StyleChannels(Channel255(c.r), Channel255(c.g), Channel255(c.b), Clamp01(c.a))
  }

  predicate IsHexDigit(ch: char) {
    '0' <= ch <= '9' || 'a' <= ch <= 'f' || 'A' <= ch <= 'F'
  }

  /** The value of one hexadecimal digit, either case. */
  function HexDigitValue(ch: char): (v: nat)
    requires IsHexDigit(ch)
    ensures v < 16
  {
    if '0' <= ch <= '9' then (ch - '0') as nat
    else if 'a' <= ch <= 'f' then (ch - 'a') as nat + 10
    else (ch - 'A') as nat + 10
  }

  /** The lower-case digit of a value below 16. */
  function HexDigit(v: nat): (ch: char)
    requires v < 16
    ensures IsHexDigit(ch) && HexDigitValue(ch) == v
  {
    if v < 10 then '0' + v as char else 'a' + (v - 10) as char
  }

  /** Two hexadecimal digits at `i`, read as a byte; `None` unless both are there. */
  function ParseByte(s: string, i: nat): (r: Option<nat>)
    ensures r.Some? <==> i + 2 <= |s| && IsHexDigit(s[i]) && IsHexDigit(s[i + 1])
    ensures r.Some? ==> r.value < 256
  {
    if i + 2 <= |s| && IsHexDigit(s[i]) && IsHexDigit(s[i + 1]) then
      Some(HexDigitValue(s[i]) * 16 + HexDigitValue(s[i + 1]))
    else None
  }

  /** `s.substr(i, 2)`: at most two characters, none past the end. */
  function Window(s: string, i: nat): (w: string)
    ensures |w| <= 2
    ensures i + 2 <= |s| ==> w == s[i..i + 2]
  {
    if i >= |s| then "" else if i + 2 <= |s| then s[i..i + 2] else s[i..]
  }

  /** The characters `parseInt` skips before the number: white space and line terminators. */
  predicate IsSpace(ch: char) {
    ch == ' ' || ch == '\t' || ch == '\n' || ch == '\r' || ch == '\U{000B}' || ch == '\U{000C}'
    || ch == '\U{00A0}' || ch == '\U{1680}' || '\U{2000}' <= ch <= '\U{200A}' || ch == '\U{2028}' || ch == '\U{2029}'
    || ch == '\U{202F}' || ch == '\U{205F}' || ch == '\U{3000}' || ch == '\U{FEFF}'
  }

  /**
   * `parseInt(w, 16)` on a window of at most two characters: leading white
   * space is skipped, a sign is read, a `0x` prefix is dropped, then the
   * leading hexadecimal digits are the value; `None` (NaN) when there are none.
   */
  function ParseIntHex(w: string): (r: Option<int>)
    requires |w| <= 2
    ensures r.Some? ==> -15 <= r.value <= 255
    ensures |w| == 0 ==> r.None?
  {
    if |w| == 0 then None
    else if |w| == 1 then (if IsHexDigit(w[0]) then Some(HexDigitValue(w[0]) as int) else None)
    else if IsSpace(w[0]) then ParseIntHex(w[1..])
    else if w[0] == '-' then (if IsHexDigit(w[1]) then Some(-(HexDigitValue(w[1]) as int)) else None)
    else if w[0] == '+' then ParseIntHex(w[1..])
    else if w[0] == '0' && (w[1] == 'x' || w[1] == 'X') then None
    else if !IsHexDigit(w[0]) then None
    else if IsHexDigit(w[1]) then Some(HexDigitValue(w[0]) * 16 + HexDigitValue(w[1]))
    else Some(HexDigitValue(w[0]) as int)
  }

  /** On two hexadecimal digits `parseInt` agrees with `ParseByte`. */
  lemma ParseIntHexByte(s: string, i: nat)
    requires ParseByte(s, i).Some?
    ensures ParseIntHex(Window(s, i)) == Some(ParseByte(s, i).value as int)
  {
    assert Window(s, i) == [s[i], s[i + 1]];
  }

  /** Where the three digit pairs of `fromHex` start: after a leading `#`, if any. */
  function HexOffset(s: string): (offset: nat)
    ensures offset <= 1
    ensures offset == 1 <==> |s| > 0 && s[0] == '#'
  {
    if |s| > 0 && s[0] == '#' then 1 else 0
  }

  /** One channel of `fromHex`: `parseInt` of the window at `i`, divided by 255; `None` for NaN. */
  function Channel(source: string, i: nat): Option<real> {
    match ParseIntHex(Window(source, i))
    case Some(v) => Some(v as real / 255.0)
    case None => None
  }

  /**
   * `Color.fromHex(source)`: three channels read two characters apart,
   * after an optional `#`; alpha is 1. `None` where a channel would be NaN.
   */
  function FromHex(source: string): (r: Option<Color>)
    ensures var o := HexOffset(source);
      r.Some? <==> Channel(source, o).Some? && Channel(source, o + 2).Some? && Channel(source, o + 4).Some?
    ensures r.Some? ==> r.value.a == 1.0
    ensures r.Some? ==> var o := HexOffset(source);
      r.value == Color(Channel(source, o).value, Channel(source, o + 2).value, Channel(source, o + 4).value, 1.0)
  {
    var o := HexOffset(source);
    match (Channel(source, o), Channel(source, o + 2), Channel(source, o + 4))
    case (Some(r), Some(g), Some(b)) => Some(Color(r, g, b, 1.0))
    case _ => None
  }

  /** A channel written as two hex digits is that byte over 255. */
  lemma ChannelOfByte(s: string, i: nat)
    requires ParseByte(s, i).Some?
    ensures Channel(s, i) == Some(ParseByte(s, i).value as real / 255.0)
  {
    ParseIntHexByte(s, i);
  }

  /** `fromHex` assembles the channels it reads. */
  lemma FromHexOfChannels(source: string, r: real, g: real, b: real)
    requires var o := HexOffset(source);
      Channel(source, o) == Some(r) && Channel(source, o + 2) == Some(g) && Channel(source, o + 4) == Some(b)
    ensures FromHex(source) == Some(Color(r, g, b, 1.0))
  {
  }

  /** Two lower-case hex digits for a byte. */
  function Hex2(v: nat): (s: string)
    requires v < 256
    ensures |s| == 2 && IsHexDigit(s[0]) && IsHexDigit(s[1])
    ensures HexDigitValue(s[0]) * 16 + HexDigitValue(s[1]) == v
  {
    [HexDigit(v / 16), HexDigit(v % 16)]
  }

  /** A byte read as value / 255 is written back by `toStyle` as the same byte. */
  lemma ByteChannelRoundTrip(v: nat)
    requires v < 256
    ensures Channel255(v as real / 255.0) == v
  {
    var c := v as real / 255.0;
    assert c * 255.0 == v as real;
    assert Clamp01(c) == c;
  }

  /** A source whose three pairs are hex digits reads as those bytes over 255. */
  lemma FromHexBytes(source: string)
    requires var o := HexOffset(source);
      ParseByte(source, o).Some? && ParseByte(source, o + 2).Some? && ParseByte(source, o + 4).Some?
    ensures var o := HexOffset(source);
      FromHex(source) == Some(Color(ParseByte(source, o).value as real / 255.0, ParseByte(source, o + 2).value as real / 255.0,
                                    ParseByte(source, o + 4).value as real / 255.0, 1.0))
  {
    var o := HexOffset(source);
    var r, g, b := ParseByte(source, o).value, ParseByte(source, o + 2).value, ParseByte(source, o + 4).value;
    ChannelOfByte(source, o);
    ChannelOfByte(source, o + 2);
    ChannelOfByte(source, o + 4);
    FromHexOfChannels(source, r as real / 255.0, g as real / 255.0, b as real / 255.0);
  }

  /** Bytes divided by 255 are written back by `toStyle` as the same bytes. */
  lemma StyleOfBytes(r: nat, g: nat, b: nat)
    requires r < 256 && g < 256 && b < 256
    ensures ToStyle(Color(r as real / 255.0, g as real / 255.0, b as real / 255.0, 1.0)) == StyleChannels(r, g, b, 1.0)
  {
    ByteChannelRoundTrip(r);
    ByteChannelRoundTrip(g);
    ByteChannelRoundTrip(b);
  }

  /** For a source whose three pairs are hex digits, the `toStyle` channels are exactly the bytes read. */
  lemma FromHexToStyle(source: string)
    requires var o := HexOffset(source);
      ParseByte(source, o).Some? && ParseByte(source, o + 2).Some? && ParseByte(source, o + 4).Some?
    ensures FromHex(source).Some?
    ensures var o := HexOffset(source);
      ToStyle(FromHex(source).value)
        == StyleChannels(ParseByte(source, o).value, ParseByte(source, o + 2).value, ParseByte(source, o + 4).value, 1.0)
  {
    var o := HexOffset(source);
    FromHexBytes(source);
    StyleOfBytes(ParseByte(source, o).value, ParseByte(source, o + 2).value, ParseByte(source, o + 4).value);
  }

  /** A pair whose second character is not a digit is read as its first digit alone, as `parseInt` does. */
  lemma FromHexReadsDigitPrefix()
    ensures FromHex("#1z0a0b") == Some(Color(1.0 / 255.0, 10.0 / 255.0, 11.0 / 255.0, 1.0))
  {
    var s := "#1z0a0b";
    assert Window(s, 1) == "1z" && Window(s, 3) == "0a" && Window(s, 5) == "0b";
    assert ParseIntHex("1z") == Some(1);
    ParseIntHexByte(s, 3);
    ParseIntHexByte(s, 5);
    assert Channel(s, 1) == Some(1.0 / 255.0);
    assert Channel(s, 3) == Some(10.0 / 255.0);
    assert Channel(s, 5) == Some(11.0 / 255.0);
  }

  /** A pair with no leading digit makes the channel NaN. */
  lemma FromHexRejectsNonDigit()
    ensures FromHex("zz0000").None?
  {
    assert Window("zz0000", 0) == "zz";
  }

  /** Writing three bytes as `#rrggbb` and reading them with `fromHex` gives back the bytes, through `toStyle`. */
  lemma HexRoundTrip(r: nat, g: nat, b: nat)
    requires r < 256 && g < 256 && b < 256
    ensures FromHex("#" + Hex2(r) + Hex2(g) + Hex2(b)).Some?
    ensures ToStyle(FromHex("#" + Hex2(r) + Hex2(g) + Hex2(b)).value) == StyleChannels(r, g, b, 1.0)
  {
    var s := "#" + Hex2(r) + Hex2(g) + Hex2(b);
    assert HexOffset(s) == 1;
    assert s[1..3] == Hex2(r) && s[3..5] == Hex2(g) && s[5..7] == Hex2(b);
    assert ParseByte(s, 1) == Some(r);
    assert ParseByte(s, 3) == Some(g);
    assert ParseByte(s, 5) == Some(b);
    FromHexToStyle(s);
  }
}
