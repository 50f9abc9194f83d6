/** What `apply_style` writes to a widget, key by key. The three widget
    classes run the same checks in the same order: `bg`, `fg`, `font`, and
    (button and switch only) `padding`, `borderwidth`, `relief`. */
module Styles {
  import opened Values
  import opened Geometry
  import opened Fonts
  import opened Toolkit

  /** The entries of `style` under the given keys, passed through unchanged:
      what the colour checks (`bg`, `fg`) and the border checks
      (`borderwidth`, `relief`) of `apply_style` write. */
  function Restrict(style: map<string, Value>, keys: set<string>): (w: map<string, Value>)
    ensures w.Keys == style.Keys * keys
    ensures forall k :: k in w ==> w[k] == style[k]
  {
    map k | k in style && k in keys :: style[k]
  }

  const ColourKeys: set<string> := {"bg", "fg"}
  const BorderKeys: set<string> := {"borderwidth", "relief"}

  /** The font conversion raises: the entry is no string, has fewer than two
      words, or its second word is no integer. */
  predicate FontRaises(style: map<string, Value>)
  {
    "font" in style && StyleFont(style["font"]).None?
  }

  /** The font tuple, when the style has a font that converts. */
  function FontWrites(style: map<string, Value>): (w: map<string, Value>)
    requires !FontRaises(style)
    ensures w.Keys == style.Keys * {"font"}
    ensures "font" in style ==> w["font"] == StyleFont(style["font"]).value
  {
    if "font" in style then map["font" := StyleFont(style["font"]).value] else map[]
  }

  /** `padx` / `pady` from a `padding` entry, split as the geometry filter
      splits it. */
  function PaddingWrites(style: map<string, Value>): (w: map<string, Value>)
    ensures "padding" in style ==> w.Keys == {"padx", "pady"}
    ensures "padding" !in style ==> w == map[]
  {
    if "padding" in style then
      var (px, py) := PadPair(style["padding"]);
      map["padx" := px, "pady" := py]
    else map[]
  }

  /** The single entry `k` of `style`, or nothing when `style` lacks it. */
  function Entry(style: map<string, Value>, k: string): (w: map<string, Value>)
    ensures w.Keys == style.Keys * {k}
    ensures k in style ==> w[k] == style[k]
  {
    if k in style then map[k := style[k]] else map[]
  }

  /** Writing two dictionaries one after the other is writing their union. */
  lemma UnionAfterUnion(m: map<string, Value>, a: map<string, Value>, b: map<string, Value>)
    ensures m + a + b == m + (a + b)
  {
    assert (m + a + b).Keys == (m + (a + b)).Keys;
  }

  /** Two keys written one after the other are the restriction to both. */
  lemma RestrictPair(style: map<string, Value>, a: string, b: string)
    requires a != b
    ensures Restrict(style, {a, b}) == Entry(style, a) + Entry(style, b)
  {
    assert Restrict(style, {a, b}).Keys == (Entry(style, a) + Entry(style, b)).Keys;
  }

  /** A font written as `"family size style..."` always converts, to the
      tuple of its words with the size as an integer. */
  lemma WrittenFontConverts(f: Font)
    requires IsWord(f.family) && AllWords(f.styles)
    ensures StyleFont(Str(FontText(f))) == Some(FontValue(f))
  {
    FontRoundTrip(f);
  }

  /** The checks every `apply_style` begins with: `bg`, then `fg`, then the
      font string. A font that does not convert raises after the colours are
      written, and nothing after it runs. */
  method ApplyColoursAndFont(widget: Widget, style: map<string, Value>) returns (raised: bool)
    modifies widget`options
    ensures raised == FontRaises(style)
    ensures raised ==> widget.options == old(widget.options) + Restrict(style, ColourKeys)
    ensures !raised ==> widget.options == old(widget.options) + Restrict(style, ColourKeys) + FontWrites(style)
  {
    if "bg" in style {
      widget.Configure(map["bg" := style["bg"]]);
    }
    assert widget.options == old(widget.options) + Entry(style, "bg");
    if "fg" in style {
      widget.Configure(map["fg" := style["fg"]]);
    }
    assert widget.options == old(widget.options) + Entry(style, "bg") + Entry(style, "fg");
    UnionAfterUnion(old(widget.options), Entry(style, "bg"), Entry(style, "fg"));
    RestrictPair(style, "bg", "fg");
    if "font" in style {
      var font := StyleFont(style["font"]);
      if font.None? {
        return true;
      }
      widget.Configure(map["font" := font.value]);
    }
    raised := false;
  }

  /** The checks only the button and the switch make after the font:
      `padding`, `borderwidth`, `relief`. */
  method ApplyBox(widget: Widget, style: map<string, Value>)
    modifies widget`options
    ensures widget.options == old(widget.options) + PaddingWrites(style) + Restrict(style, BorderKeys)
  {
    if "padding" in style {
      var p := style["padding"];
      if p.Items? && |p.elems| >= 2 {
        widget.Configure(map["padx" := p.elems[0], "pady" := p.elems[1]]);
      } else {
        widget.Configure(map["padx" := p, "pady" := p]);
      }
    }
    ghost var padded := widget.options;
    assert padded == old(widget.options) + PaddingWrites(style);
    if "borderwidth" in style {
      widget.Configure(map["borderwidth" := style["borderwidth"]]);
    }
    assert widget.options == padded + Entry(style, "borderwidth");
    if "relief" in style {
      widget.Configure(map["relief" := style["relief"]]);
    }
    assert widget.options == padded + Entry(style, "borderwidth") + Entry(style, "relief");
    UnionAfterUnion(padded, Entry(style, "borderwidth"), Entry(style, "relief"));
    RestrictPair(style, "borderwidth", "relief");
  }
}
