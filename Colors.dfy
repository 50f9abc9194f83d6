/** The colour codec the three widget classes share: `_hex_to_rgb` (inlined
    into `_color_to_rgb` in the label and switch), `_color_to_rgb` with its
    white fallback, and `_rgb_to_hex`. */
module Colors {
  import opened Values
  import opened Numerals

  /** A colour as three channel intensities. */
  datatype Rgb = Rgb(r: int, g: int, b: int)

  /** A colour mid-tween: the channels are Python floats. */
  datatype RealRgb = RealRgb(r: real, g: real, b: real)

  /** What every failed conversion falls back to. */
  const White: Rgb := Rgb(255, 255, 255)

  predicate IsByteRgb(c: Rgb)
  {
    0 <= c.r < 256 && 0 <= c.g < 256 && 0 <= c.b < 256
  }

  /** The range of the toolkit's `winfo_rgb`: 16 bits per channel. */
  predicate IsWordRgb(c: Rgb)
  {
    0 <= c.r < 65536 && 0 <= c.g < 65536 && 0 <= c.b < 65536
  }

  function ToReal(c: Rgb): RealRgb
  {
    RealRgb(c.r as real, c.g as real, c.b as real)
  }

  predicate StartsWithHash(s: string)
  {
    |s| > 0 && s[0] == '#'
  }

  /** `s.lstrip('#')`. */
  function StripHashes(s: string): (r: string)
    ensures |r| <= |s| && r == s[|s| - |r|..]
    ensures !StartsWithHash(r)
    ensures forall i :: 0 <= i < |s| - |r| ==> s[i] == '#'
  {
    if StartsWithHash(s) then StripHashes(s[1..]) else s
  }

  /** `''.join(c*2 for c in s)`. */
  function DoubleEach(s: string): (r: string)
    ensures |r| == 2 * |s|
    ensures forall i :: 0 <= i < |s| ==> r[2 * i] == s[i] && r[2 * i + 1] == s[i]
  {
    if s == [] then [] else [s[0], s[0]] + DoubleEach(s[1..])
  }

  /** Python's slice `s[i:j]` for `0 <= i <= j`: both ends are clipped to the length. */
  function Slice(s: string, i: nat, j: nat): (r: string)
    requires i <= j
    ensures |r| == (if j <= |s| then j - i else if i <= |s| then |s| - i else 0)
    ensures forall k :: 0 <= k < |r| ==> r[k] == s[i + k]
  {
    if j <= |s| then s[i..j] else if i <= |s| then s[i..] else []
  }

  /** A slice of at most two characters read with `int(_, 16)` is a byte. */
  lemma ParseShortIsByte(s: string)
    requires |s| <= 2
    ensures Parse(s, 16).Some? ==> Parse(s, 16).value < 256
  {
    if Parse(s, 16).Some? {
      ValueOfShort(s);
    }
  }

  /** Reads the slices `[0:2]`, `[2:4]`, `[4:6]` of `h` with `int(_, 16)`;
      `None` stands for the `ValueError` raised on an empty slice or a non-digit. */
  function Channels(h: string): (r: Option<Rgb>)
    ensures r.Some? ==> IsByteRgb(r.value)
  {
    var red, green, blue := Slice(h, 0, 2), Slice(h, 2, 4), Slice(h, 4, 6);
    ParseShortIsByte(red);
    ParseShortIsByte(green);
    ParseShortIsByte(blue);
    if Parse(red, 16).Some? && Parse(green, 16).Some? && Parse(blue, 16).Some? then
      Some(Rgb(Parse(red, 16).value, Parse(green, 16).value, Parse(blue, 16).value))
    else
      None
  }

  /** `_hex_to_rgb`: strip every leading `#`, double each digit of a
      three-digit colour, then read the three channel slices. */
  function HexToRgb(hexColor: string): (r: Option<Rgb>)
    ensures r.Some? ==> IsByteRgb(r.value)
  {
    var stripped := StripHashes(hexColor);
    Channels(if |stripped| == 3 then DoubleEach(stripped) else stripped)
  }

  /** `_color_to_rgb`: a string starting with `#` goes through the hex parser;
      any other colour goes through the toolkit query `winfo_rgb`, whose
      answer (`None` if it raised) is `native`, scaled down with `// 256`.
      Every failure gives white. */
  function ColorToRgb(color: string, native: Option<Rgb>): (c: Rgb)
    ensures StartsWithHash(color) || native.None? || IsWordRgb(native.value) ==> IsByteRgb(c)
    ensures StartsWithHash(color) && HexToRgb(color).None? ==> c == White
    ensures !StartsWithHash(color) && native.None? ==> c == White
    ensures StartsWithHash(color) && HexToRgb(color).Some? ==> c == HexToRgb(color).value
    ensures !StartsWithHash(color) && native.Some? ==>
              256 * c.r <= native.value.r < 256 * (c.r + 1) &&
              256 * c.g <= native.value.g < 256 * (c.g + 1) &&
              256 * c.b <= native.value.b < 256 * (c.b + 1)
  {
    if StartsWithHash(color) then
      match HexToRgb(color)
      case Some(rgb) => rgb
      case None => White
    else
      match native
      case Some(n) => Rgb(n.r / 256, n.g / 256, n.b / 256)
      case None => White
  }

  /** `'%02x' % n`: zero-padded to two characters; a negative number keeps its
      sign inside that width. */
  function Hex02(n: int): string
  {
    if n < 0 then "-" + Numeral(-n, 16)
    else if n < 16 then "0" + Numeral(n, 16)
    else Numeral(n, 16)
  }

  /** `_rgb_to_hex`: each channel truncated with `int()` and printed as `%02x`. */
  function RgbToHex(c: RealRgb): string
  {
    "#" + Hex02(Trunc(c.r)) + Hex02(Trunc(c.g)) + Hex02(Trunc(c.b))
  }

  /** `#` followed by exactly six lower-case hex digits. */
  predicate IsCanonicalHex(s: string)
  {
    |s| == 7 && s[0] == '#' && forall i :: 1 <= i < 7 ==> IsLowerHexDigit(s[i])
  }

  /** A byte prints as two lower-case hex digits that read back as the byte. */
  lemma Hex02OfByte(n: int)
    requires 0 <= n < 256
    ensures |Hex02(n)| == 2
    ensures forall i :: 0 <= i < 2 ==> IsLowerHexDigit(Hex02(n)[i])
    ensures Parse(Hex02(n), 16) == Some(n)
  {
    var h := Hex02(n);
    HexNumeralOfByte(n);
    if n < 16 {
      assert Numeral(n, 16) == [DigitChar(n)];
      assert h == ['0', DigitChar(n)];
      ParseHexPair(h);
    } else {
      ParseNumeral(n, 16);
    }
  }

  /** `lstrip('#')` of one `#` before a string that does not start with `#`. */
  lemma StripOneHash(h: string)
    requires !StartsWithHash(h)
    ensures StripHashes("#" + h) == h
  {
    assert ("#" + h)[1..] == h;
  }

  /** The three channel slices of two two-character pieces followed by a
      piece of at most two characters are exactly those pieces. */
  lemma ChannelsOfPieces(a: string, b: string, c: string)
    requires |a| == 2 && |b| == 2 && |c| <= 2
    ensures Channels(a + b + c) ==
      if Parse(a, 16).Some? && Parse(b, 16).Some? && Parse(c, 16).Some? then
        Some(Rgb(Parse(a, 16).value, Parse(b, 16).value, Parse(c, 16).value))
      else None
  {
    var h := a + b + c;
    assert Slice(h, 0, 2) == a;
    assert Slice(h, 2, 4) == b;
    assert Slice(h, 4, 6) == c;
  }

  /** `_hex_to_rgb` of `#` and six characters reads the three pairs. */
  lemma HexOfPieces(a: string, b: string, c: string)
    requires |a| == 2 && |b| == 2 && |c| <= 2 && !StartsWithHash(a)
    ensures HexToRgb("#" + (a + b + c)) ==
      if Parse(a, 16).Some? && Parse(b, 16).Some? && Parse(c, 16).Some? then
        Some(Rgb(Parse(a, 16).value, Parse(b, 16).value, Parse(c, 16).value))
      else None
  {
    assert (a + b + c)[0] == a[0];
    StripOneHash(a + b + c);
    ChannelsOfPieces(a, b, c);
  }

  /** `_rgb_to_hex` of whole channels is `#` and their three `%02x` pieces. */
  lemma FormattedPieces(c: Rgb)
    ensures RgbToHex(ToReal(c)) == "#" + (Hex02(c.r) + Hex02(c.g) + Hex02(c.b))
  {
    assert Trunc(c.r as real) == c.r && Trunc(c.g as real) == c.g && Trunc(c.b as real) == c.b;
  }

  /** `#` and three pairs of lower-case hex digits is canonical. */
  lemma CanonicalOfPieces(a: string, b: string, c: string)
    requires |a| == 2 && |b| == 2 && |c| == 2
    requires forall i :: 0 <= i < 2 ==> IsLowerHexDigit(a[i]) && IsLowerHexDigit(b[i]) && IsLowerHexDigit(c[i])
    ensures IsCanonicalHex("#" + (a + b + c))
  {
    var s := "#" + (a + b + c);
    forall i | 1 <= i < 7
      ensures IsLowerHexDigit(s[i])
    {
      if i < 3 {
        assert s[i] == a[i - 1];
      } else if i < 5 {
        assert s[i] == b[i - 3];
      } else {
        assert s[i] == c[i - 5];
      }
    }
  }

  /** Formatting an 8-bit triple gives `#rrggbb` in lower case, and parsing that
      string gives the triple back. */
  lemma {:induction false} HexRoundTrip(c: Rgb)
    requires IsByteRgb(c)
    ensures IsCanonicalHex(RgbToHex(ToReal(c)))
    ensures HexToRgb(RgbToHex(ToReal(c))) == Some(c)
  {
    var hr, hg, hb := Hex02(c.r), Hex02(c.g), Hex02(c.b);
    FormattedPieces(c);
    Hex02OfByte(c.r);
    Hex02OfByte(c.g);
    Hex02OfByte(c.b);
    CanonicalOfPieces(hr, hg, hb);
    assert IsLowerHexDigit(hr[0]);
    HexOfPieces(hr, hg, hb);
  }

  /** Whatever the toolkit would answer, `_color_to_rgb` of a formatted 8-bit
      triple is that triple. */
  lemma ColorOfFormattedHex(c: Rgb, native: Option<Rgb>)
    requires IsByteRgb(c)
    ensures ColorToRgb(RgbToHex(ToReal(c)), native) == c
  {
    HexRoundTrip(c);
  }

  /** `#` plus three digits parses like `#` plus the six digits with each digit
      doubled. */
  lemma ThreeDigitExpansion(s: string)
    requires |s| == 3 && s[0] != '#'
    ensures HexToRgb("#" + s) == HexToRgb("#" + DoubleEach(s))
  {
    assert StripHashes("#" + s) == s by {
      assert ("#" + s)[1..] == s;
    }
    var d := DoubleEach(s);
    assert d[0] == s[0];
    assert StripHashes("#" + d) == d by {
      assert ("#" + d)[1..] == d;
    }
  }

  /** However many `#` lead the colour, `_hex_to_rgb` ignores them all. */
  lemma LeadingHashesIgnored(hashes: string, s: string)
    requires forall i :: 0 <= i < |hashes| ==> hashes[i] == '#'
    ensures HexToRgb(hashes + s) == HexToRgb(s)
  {
    if hashes != [] {
      assert (hashes + s)[1..] == hashes[1..] + s;
      LeadingHashesIgnored(hashes[1..], s);
    } else {
      assert hashes + s == s;
    }
  }

  /** Only the first six digits count: `#rrggbbXYZ` parses like `#rrggbb`. */
  lemma FirstSixDigitsRead(h: string)
    requires |h| >= 6 && h[0] != '#'
    ensures HexToRgb("#" + h) == HexToRgb("#" + h[..6])
  {
    assert StripHashes("#" + h) == h by {
      assert ("#" + h)[1..] == h;
    }
    var six := h[..6];
    assert StripHashes("#" + six) == six by {
      assert ("#" + six)[1..] == six;
    }
    assert Slice(h, 0, 2) == Slice(six, 0, 2);
    assert Slice(h, 2, 4) == Slice(six, 2, 4);
    assert Slice(h, 4, 6) == Slice(six, 4, 6);
  }

  /** A colour with zero, one, two or four digits after the `#` makes `int()`
      raise on an empty slice, so `_color_to_rgb` gives white. */
  lemma TooFewDigitsGiveWhite(color: string, native: Option<Rgb>)
    requires StartsWithHash(color)
    requires |StripHashes(color)| in {0, 1, 2, 4}
    ensures HexToRgb(color) == None
    ensures ColorToRgb(color, native) == White
  {
    var h := StripHashes(color);
    assert Slice(h, 4, 6) == [];
  }

  /** Five digits are not an error: the last slice holds one digit, which
      `int(_, 16)` reads on its own, so `#abcde` is `(0xab, 0xcd, 0xe)`. */
  lemma FiveDigitsReadLastAlone(h: string)
    requires |h| == 5 && AllDigitsIn(h, 16)
    ensures HexToRgb("#" + h) == Some(Rgb(
      DigitValue(h[0]) * 16 + DigitValue(h[1]), DigitValue(h[2]) * 16 + DigitValue(h[3]), DigitValue(h[4])))
  {
    var a, b, c := h[..2], h[2..4], h[4..];
    assert h == a + b + c;
    ParseHexPair(a);
    ParseHexPair(b);
    ParseHexDigit(c);
    HexOfPieces(a, b, c);
  }

  /** `#` and six hex digits read as three pairs. */
  lemma SixDigits(s: string)
    requires |s| == 7 && s[0] == '#'
    requires forall i :: 1 <= i < 7 ==> IsDigitIn(s[i], 16)
    ensures HexToRgb(s) == Some(Rgb(
      DigitValue(s[1]) * 16 + DigitValue(s[2]),
      DigitValue(s[3]) * 16 + DigitValue(s[4]),
      DigitValue(s[5]) * 16 + DigitValue(s[6])))
  {
    var a, b, c := s[1..3], s[3..5], s[5..7];
    assert s == "#" + (a + b + c);
    assert IsDigitIn(a[0], 16);
    ParseHexPair(a);
    ParseHexPair(b);
    ParseHexPair(c);
    HexOfPieces(a, b, c);
  }

  /** The default background `#ffffff` reads as white. */
  lemma WhiteParses()
    ensures HexToRgb("#ffffff") == Some(White)
  {
    SixDigits("#ffffff");
  }

  /** The default foreground `#000000` reads as black. */
  lemma BlackParses()
    ensures HexToRgb("#000000") == Some(Rgb(0, 0, 0))
  {
    SixDigits("#000000");
  }
}
