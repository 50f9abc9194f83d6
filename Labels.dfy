/** `Label`: a toolkit label with an optional theme, the geometry filter,
    background, foreground and move tweens, and style application. */
module Labels {
  import opened Values
  import opened Colors
  import opened Geometry
  import opened Toolkit
  import opened Tweens
  import opened Styles

  /** What `apply_theme` writes: `bg`, `fg` and `font` from the theme, with
      the defaults `#ffffff`, `#000000` and `("Arial", 11)`. */
  function ThemeWrites(theme: map<string, Value>): (w: map<string, Value>)
    ensures w.Keys == {"bg", "fg", "font"}
    ensures forall k :: k in w && k in theme ==> w[k] == theme[k]
    ensures "bg" !in theme ==> w["bg"] == Str("#ffffff")
    ensures "fg" !in theme ==> w["fg"] == Str("#000000")
    ensures "font" !in theme ==> w["font"] == Items([Str("Arial"), Int(11)])
  {
    map[
      "bg" := if "bg" in theme then theme["bg"] else Str("#ffffff"),
      "fg" := if "fg" in theme then theme["fg"] else Str("#000000"),
      "font" := if "font" in theme then theme["font"] else Items([Str("Arial"), Int(11)])]
  }

  class Label {
    const widget: Widget
    /** The theme given at construction: `None` when the caller gave none. */
    const theme: Option<map<string, Value>>

    /** The label is created with its text; a theme that is present and
        non-empty (truthy) is applied at once. */
    constructor (text: string, theme: Option<map<string, Value>>)
      ensures fresh(widget) && this.theme == theme && widget.manager == Unmanaged
      ensures (theme.None? || theme.value == map[]) ==> widget.options == map["text" := Str(text)]
      ensures theme.Some? && theme.value != map[] ==>
                widget.options == map["text" := Str(text)] + ThemeWrites(theme.value)
    {
      widget := new Widget(map["text" := Str(text)]);
      this.theme := theme;
      new;
      if theme.Some? && theme.value != map[] {
        var _ := ApplyTheme();
      }
    }

    /** `apply_theme`: with no theme, `self.theme.get` raises before anything
        is written; otherwise the three entries are configured. */
    method ApplyTheme() returns (raised: bool)
      modifies widget`options
      ensures raised <==> theme.None?
      ensures raised ==> widget.options == old(widget.options)
      ensures !raised ==> widget.options == old(widget.options) + ThemeWrites(theme.value)
    {
      if theme.None? {
        return true;
      }
      widget.Configure(ThemeWrites(theme.value));
      raised := false;
    }

    method Pack(kwargs: map<string, Value>)
      modifies widget`manager, widget`geometry
      ensures widget.manager == Packed && widget.geometry == Filtered(kwargs)
    {
      var filtered := FilterGeomKwargs(kwargs);
      widget.Manage(Packed, filtered);
    }

    method Grid(kwargs: map<string, Value>)
      modifies widget`manager, widget`geometry
      ensures widget.manager == Gridded && widget.geometry == Filtered(kwargs)
    {
      var filtered := FilterGeomKwargs(kwargs);
      widget.Manage(Gridded, filtered);
    }

    method Place(kwargs: map<string, Value>)
      modifies widget`manager, widget`geometry
      ensures widget.manager == Placed && widget.geometry == Filtered(kwargs)
    {
      var filtered := FilterGeomKwargs(kwargs);
      widget.Manage(Placed, filtered);
    }

    /** `cget('bg') or '#ffffff'`: unlike the button, `background` is not consulted. */
    function StartBg(): (c: string)
      reads widget
      ensures c != ""
      ensures widget.Cget("bg") != "" ==> c == widget.Cget("bg")
      ensures widget.Cget("bg") == "" ==> c == "#ffffff"
    {
      if widget.Cget("bg") != "" then widget.Cget("bg") else "#ffffff"
    }

    /** `cget('fg') or cget('foreground') or '#000000'`. */
    function StartFg(): (c: string)
      reads widget
      ensures c != ""
      ensures c == widget.Cget("fg") || c == widget.Cget("foreground") || c == "#000000"
      ensures widget.Cget("fg") != "" ==> c == widget.Cget("fg")
      ensures widget.Cget("fg") == "" && widget.Cget("foreground") != "" ==> c == widget.Cget("foreground")
      ensures widget.Cget("fg") == "" && widget.Cget("foreground") == "" ==> c == "#000000"
    {
      if widget.Cget("fg") != "" then widget.Cget("fg")
      else if widget.Cget("foreground") != "" then widget.Cget("foreground")
      else "#000000"
    }

    /** `animate_bg`: a tween of `bg` from the current background to `toColour`. */
    method AnimateBg(toColour: string, duration: real, steps: Option<int>,
                     startNative: Option<Rgb>, endNative: Option<Rgb>) returns (tween: ColorTween)
      ensures fresh(tween) && tween.widget == widget && tween.option == "bg"
      ensures tween.startRgb == ColorToRgb(StartBg(), startNative)
      ensures tween.endRgb == ColorToRgb(toColour, endNative)
      ensures tween.steps == StepsFor(duration, steps) && tween.duration == duration
      ensures tween.step == 0 && !tween.cancelled && tween.pending
    {
      tween := AnimateColour(widget, "bg", StartBg(), toColour, duration, steps, startNative, endNative);
    }

    /** `animate_fg`: a tween of `fg` from the current foreground to `toColour`. */
    method AnimateFg(toColour: string, duration: real, steps: Option<int>,
                     startNative: Option<Rgb>, endNative: Option<Rgb>) returns (tween: ColorTween)
      ensures fresh(tween) && tween.widget == widget && tween.option == "fg"
      ensures tween.startRgb == ColorToRgb(StartFg(), startNative)
      ensures tween.endRgb == ColorToRgb(toColour, endNative)
      ensures tween.steps == StepsFor(duration, steps) && tween.duration == duration
      ensures tween.step == 0 && !tween.cancelled && tween.pending
    {
      tween := AnimateColour(widget, "fg", StartFg(), toColour, duration, steps, startNative, endNative);
    }

    /** `animate_move`; `position` is the answer of `winfo_x` / `winfo_y`. */
    method AnimateMove(toX: int, toY: int, duration: real, steps: Option<int>,
                       position: Option<(int, int)>) returns (handle: MoveHandle)
      ensures position.None? ==> handle == NoOpCancel
      ensures position.Some? && StepsFor(duration, steps) == 0 ==> handle == Raised
      ensures position.Some? && StepsFor(duration, steps) != 0 ==>
        && handle.Cancellable? && fresh(handle.tween) && handle.tween.widget == widget
        && handle.tween.currentX == position.value.0 && handle.tween.currentY == position.value.1
        && handle.tween.toX == toX && handle.tween.toY == toY
        && handle.tween.steps == StepsFor(duration, steps) && handle.tween.duration == duration
        && handle.tween.step == 0 && !handle.tween.cancelled && handle.tween.pending
    {
      handle := Tweens.AnimateMove(widget, toX, toY, duration, steps, position);
    }

    /** `apply_style`: only `bg`, `fg` and `font`; a font that does not
        convert raises after the colours are written. */
    method ApplyStyle(style: map<string, Value>) returns (raised: bool)
      modifies widget`options
      ensures raised == FontRaises(style)
      ensures raised ==> widget.options == old(widget.options) + Restrict(style, ColourKeys)
      ensures !raised ==> widget.options == old(widget.options) + Restrict(style, ColourKeys) + FontWrites(style)
    {
      raised := ApplyColoursAndFont(widget, style);
    }
  }

  /** A label whose foreground was never set fades its text from black. */
  lemma UnsetForegroundStartsBlack(l: Label, native: Option<Rgb>)
    requires l.widget.Cget("fg") == "" && l.widget.Cget("foreground") == ""
    ensures ColorToRgb(l.StartFg(), native) == Rgb(0, 0, 0)
  {
    BlackParses();
  }

  /** A label whose background was never set fades from white. */
  lemma UnsetBackgroundStartsWhite(l: Label, native: Option<Rgb>)
    requires l.widget.Cget("bg") == ""
    ensures ColorToRgb(l.StartBg(), native) == White
  {
    WhiteParses();
  }

  /** A theme without colours gives the label black text on a white background. */
  lemma ThemeDefaultsParse(theme: map<string, Value>, native: Option<Rgb>)
    requires "bg" !in theme && "fg" !in theme
    ensures ThemeWrites(theme)["bg"].Str? && ThemeWrites(theme)["fg"].Str?
    ensures ColorToRgb(ThemeWrites(theme)["bg"].s, native) == White
    ensures ColorToRgb(ThemeWrites(theme)["fg"].s, native) == Rgb(0, 0, 0)
  {
    WhiteParses();
    BlackParses();
  }
}
