/** The font string that `apply_style` turns into a font tuple:
    `parts = font.split()` and `(parts[0], int(parts[1]), *parts[2:])`. */
module Fonts {
  import opened Values
  import opened Numerals

  /** Python's `str.isspace()`, the separators of `str.split()`. */
  predicate IsSpace(c: char)
  {
    var n := c as int;
    9 <= n <= 13 || 28 <= n <= 32 || n == 0x85 || n == 0xA0 || n == 0x1680
    || 0x2000 <= n <= 0x200A || n == 0x2028 || n == 0x2029 || n == 0x202F
    || n == 0x205F || n == 0x3000
  }

  predicate NoSpace(s: string)
  {
    forall i :: 0 <= i < |s| ==> !IsSpace(s[i])
  }

  /** A token of `str.split()`: non-empty, without whitespace. */
  predicate IsWord(w: string)
  {
    w != [] && NoSpace(w)
  }

  predicate AllWords(ws: seq<string>)
  {
    forall i :: 0 <= i < |ws| ==> IsWord(ws[i])
  }

  /** The rest of `str.split()` once `word` has been read of the current token. */
  function SplitFrom(s: string, word: string): (ws: seq<string>)
    requires NoSpace(word)
    ensures AllWords(ws)
    decreases |s|
  {
    if s == [] then
      (if word == [] then [] else [word])
    else if IsSpace(s[0]) then
      (if word == [] then SplitFrom(s[1..], []) else [word] + SplitFrom(s[1..], []))
    else
      SplitFrom(s[1..], word + [s[0]])
  }

  /** `s.split()`: the maximal runs of non-whitespace, in order. */
  function Split(s: string): (ws: seq<string>)
    ensures AllWords(ws)
  {
    SplitFrom(s, [])
  }

  /** The words joined with single spaces. */
  function JoinWords(ws: seq<string>): string
  {
    if ws == [] then [] else if |ws| == 1 then ws[0] else ws[0] + " " + JoinWords(ws[1..])
  }

  /** Reading a run of non-space characters just extends the current token. */
  lemma {:induction false} SplitFromWord(w: string, rest: string, word: string)
    requires NoSpace(word) && NoSpace(w)
    requires rest == [] || IsSpace(rest[0])
    ensures SplitFrom(w + rest, word) == SplitFrom(rest, word + w)
    decreases |w|
  {
    if w == [] {
      assert w + rest == rest && word + w == word;
    } else {
      assert (w + rest)[0] == w[0] && (w + rest)[1..] == w[1..] + rest;
      SplitFromWord(w[1..], rest, word + [w[0]]);
      assert word + [w[0]] + w[1..] == word + w;
    }
  }

  /** Splitting words joined with single spaces gives the words back. */
  lemma {:induction false} SplitJoin(ws: seq<string>)
    requires AllWords(ws)
    ensures Split(JoinWords(ws)) == ws
  {
    if ws == [] {
    } else if |ws| == 1 {
      SplitFromWord(ws[0], [], []);
      assert [] + ws[0] == ws[0] && ws[0] + [] == ws[0];
    } else {
      var rest := " " + JoinWords(ws[1..]);
      assert JoinWords(ws) == ws[0] + rest;
      SplitFromWord(ws[0], rest, []);
      assert [] + ws[0] == ws[0];
      assert rest[1..] == JoinWords(ws[1..]);
      SplitJoin(ws[1..]);
      assert ws == [ws[0]] + ws[1..];
    }
  }

  /** The characters of `s` that are not whitespace, in order. */
  function NonSpace(s: string): string
  {
    if s == [] then [] else if IsSpace(s[0]) then NonSpace(s[1..]) else [s[0]] + NonSpace(s[1..])
  }

  /** The tokens concatenated. */
  function Concat(ws: seq<string>): string
  {
    if ws == [] then [] else ws[0] + Concat(ws[1..])
  }

  /** The tokens still to be produced hold the current token and then every
      remaining non-space character, in order. */
  lemma {:induction false} SplitFromKeepsText(s: string, word: string)
    requires NoSpace(word)
    ensures Concat(SplitFrom(s, word)) == word + NonSpace(s)
    decreases |s|
  {
    if s == [] {
      assert word + [] == word;
      if word != [] {
        assert Concat([word]) == word + Concat([]);
      }
    } else if IsSpace(s[0]) {
      SplitFromKeepsText(s[1..], []);
      var rest := SplitFrom(s[1..], []);
      if word != [] {
        assert ([word] + rest)[1..] == rest;
      }
    } else {
      SplitFromKeepsText(s[1..], word + [s[0]]);
      assert word + [s[0]] + NonSpace(s[1..]) == word + ([s[0]] + NonSpace(s[1..]));
    }
  }

  /** Whatever whitespace surrounds or separates them, the tokens of `s.split()`
      put back together are exactly the non-space characters of `s`. */
  lemma SplitKeepsText(s: string)
    ensures Concat(Split(s)) == NonSpace(s)
  {
    SplitFromKeepsText(s, []);
  }

  /** The digits of a token after an optional leading sign. */
  function Unsigned(s: string): string
  {
    if |s| > 0 && (s[0] == '-' || s[0] == '+') then s[1..] else s
  }

  /** `int(s)` on a split token, for an optional sign followed by ASCII
      decimal digits; `None` stands for the `ValueError` that Python raises on
      an empty token, a lone sign, or a letter or punctuation mark. Python
      also reads underscores between digits and non-ASCII decimal digits;
      this model does not. */
  function ParseInt(s: string): (r: Option<int>)
    ensures r.Some? <==> Unsigned(s) != [] && AllDigitsIn(Unsigned(s), 10)
    ensures r.Some? && |s| > 0 && s[0] == '-' ==> r.value <= 0
    ensures r.Some? && !(|s| > 0 && s[0] == '-') ==> r.value >= 0
  {
    if |s| > 0 && s[0] == '-' then
      (match Parse(s[1..], 10) case Some(n) => Some(-(n as int)) case None => None)
    else if |s| > 0 && s[0] == '+' then
      (match Parse(s[1..], 10) case Some(n) => Some(n) case None => None)
    else
      (match Parse(s, 10) case Some(n) => Some(n) case None => None)
  }

  /** `str(n)`. */
  function DecimalText(n: int): string
  {
    if n < 0 then "-" + Numeral(-n, 10) else Numeral(n, 10)
  }

  /** `int(str(n)) == n`. */
  lemma IntTextRoundTrip(n: int)
    ensures ParseInt(DecimalText(n)) == Some(n)
  {
    var m: nat := if n < 0 then -n else n;
    var digits := Numeral(m, 10);
    ParseNumeral(m, 10);
    assert DigitValue(digits[0]) >= 0;
    if n < 0 {
      var t := DecimalText(n);
      assert t == "-" + digits && t[1..] == digits;
    }
  }

  /** A font as the toolkit receives it: family, point size, style words. */
  datatype Font = Font(family: string, size: int, styles: seq<string>)

  /** The font tuple `(parts[0], int(parts[1]), *parts[2:])`, or `None` where
      the source raises: fewer than two tokens (`IndexError`) or a second
      token that is no integer (`ValueError`). */
  function ParseFont(s: string): (r: Option<Font>)
    ensures |Split(s)| < 2 ==> r.None?
    ensures |Split(s)| >= 2 && ParseInt(Split(s)[1]).None? ==> r.None?
    ensures r.Some? ==> ParseInt(Split(s)[1]) == Some(r.value.size)
    ensures r.Some? ==> IsWord(r.value.family) && AllWords(r.value.styles)
  {
    var parts := Split(s);
    if |parts| < 2 then None
    else
      match ParseInt(parts[1])
      case Some(size) => Some(Font(parts[0], size, parts[2..]))
      case None => None
  }

  /** The font written the way a style file writes it: `"Arial 12 bold"`. */
  function FontText(f: Font): string
  {
    JoinWords([f.family, DecimalText(f.size)] + f.styles)
  }

  lemma DecimalTextIsWord(n: int)
    ensures IsWord(DecimalText(n))
  {
    var t := DecimalText(n);
    forall i | 0 <= i < |t| ensures !IsSpace(t[i]) {
      if n < 0 && i > 0 {
        assert t[i] == Numeral(-n, 10)[i - 1];
      }
    }
  }

  /** Parsing a written font gives the font back: family, size and every style
      word, in order. */
  lemma {:induction false} FontRoundTrip(f: Font)
    requires IsWord(f.family) && AllWords(f.styles)
    ensures ParseFont(FontText(f)) == Some(f)
  {
    var ws := [f.family, DecimalText(f.size)] + f.styles;
    DecimalTextIsWord(f.size);
    SplitJoin(ws);
    IntTextRoundTrip(f.size);
    assert ws[2..] == f.styles;
  }

  /** The value the toolkit's `config(font=...)` receives. */
  function FontValue(f: Font): Value
  {
    Items([Str(f.family), Int(f.size)] + seq(|f.styles|, i requires 0 <= i < |f.styles| => Str(f.styles[i])))
  }

  /** A font entry of a style dictionary: anything but a string has no
      `split` and raises `AttributeError`. */
  function StyleFont(v: Value): (r: Option<Value>)
    ensures r.Some? <==> v.Str? && ParseFont(v.s).Some?
    ensures r.Some? ==> r.value.Items? && |r.value.elems| >= 2
    ensures r.Some? ==> r.value.elems[0].Str? && r.value.elems[1].Int?
  {
    if v.Str? then
      match ParseFont(v.s)
      case Some(f) => Some(FontValue(f))
      case None => None
    else None
  }
}
