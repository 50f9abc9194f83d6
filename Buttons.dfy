/** `Button`: a toolkit button with the geometry filter, colour and move
    tweens, and style application. */
module Buttons {
  import opened Values
  import opened Colors
  import opened Geometry
  import opened Toolkit
  import opened Tweens
  import opened Styles

  class Button {
    const widget: Widget

    constructor (text: string)
      ensures fresh(widget)
      ensures widget.options == map["text" := Str(text)] && widget.manager == Unmanaged
    {
      widget := new Widget(map["text" := Str(text)]);
    }

    method Pack(kwargs: map<string, Value>)
      modifies widget`manager, widget`geometry
      ensures widget.manager == Packed && widget.geometry == Filtered(kwargs)
    {
      var filtered := FilterGeomKwargs(kwargs);
      widget.Manage(Packed, filtered);
    }

    method Grid(kwargs: map<string, Value>)
      modifies widget`manager, widget`geometry
      ensures widget.manager == Gridded && widget.geometry == Filtered(kwargs)
    {
      var filtered := FilterGeomKwargs(kwargs);
      widget.Manage(Gridded, filtered);
    }

    method Place(kwargs: map<string, Value>)
      modifies widget`manager, widget`geometry
      ensures widget.manager == Placed && widget.geometry == Filtered(kwargs)
    {
      var filtered := FilterGeomKwargs(kwargs);
      widget.Manage(Placed, filtered);
    }

    /** `cget('bg') or cget('background') or '#ffffff'`. */
    function StartBg(): (c: string)
      reads widget
      ensures c != ""
      ensures c == widget.Cget("bg") || c == widget.Cget("background") || c == "#ffffff"
      ensures widget.Cget("bg") != "" ==> c == widget.Cget("bg")
      ensures widget.Cget("bg") == "" && widget.Cget("background") != "" ==> c == widget.Cget("background")
      ensures widget.Cget("bg") == "" && widget.Cget("background") == "" ==> c == "#ffffff"
    {
      if widget.Cget("bg") != "" then widget.Cget("bg")
      else if widget.Cget("background") != "" then widget.Cget("background")
      else "#ffffff"
    }

    /** `animate_bg`: a tween of `bg` from the current background to `toColour`. */
    method AnimateBg(toColour: string, duration: real, steps: Option<int>,
                     startNative: Option<Rgb>, endNative: Option<Rgb>) returns (tween: ColorTween)
      ensures fresh(tween) && tween.widget == widget && tween.option == "bg"
      ensures tween.startRgb == ColorToRgb(StartBg(), startNative)
      ensures tween.endRgb == ColorToRgb(toColour, endNative)
      ensures tween.steps == StepsFor(duration, steps) && tween.duration == duration
      ensures tween.step == 0 && !tween.cancelled && tween.pending
    {
      tween := AnimateColour(widget, "bg", StartBg(), toColour, duration, steps, startNative, endNative);
    }

    /** `animate_move`; `position` is the answer of `winfo_x` / `winfo_y`. */
    method AnimateMove(toX: int, toY: int, duration: real, steps: Option<int>,
                       position: Option<(int, int)>) returns (handle: MoveHandle)
      ensures position.None? ==> handle == NoOpCancel
      ensures position.Some? && StepsFor(duration, steps) == 0 ==> handle == Raised
      ensures position.Some? && StepsFor(duration, steps) != 0 ==>
        && handle.Cancellable? && fresh(handle.tween) && handle.tween.widget == widget
        && handle.tween.currentX == position.value.0 && handle.tween.currentY == position.value.1
        && handle.tween.toX == toX && handle.tween.toY == toY
        && handle.tween.steps == StepsFor(duration, steps) && handle.tween.duration == duration
        && handle.tween.step == 0 && !handle.tween.cancelled && handle.tween.pending
    {
      handle := Tweens.AnimateMove(widget, toX, toY, duration, steps, position);
    }

    /** `apply_style`: `bg`, `fg`, `font`, `padding`, `borderwidth`, `relief`,
        in that order; a font that does not convert raises and stops there. */
    method ApplyStyle(style: map<string, Value>) returns (raised: bool)
      modifies widget`options
      ensures raised == FontRaises(style)
      ensures raised ==> widget.options == old(widget.options) + Restrict(style, ColourKeys)
      ensures !raised ==>
        widget.options == old(widget.options) + Restrict(style, ColourKeys) + FontWrites(style)
                          + PaddingWrites(style) + Restrict(style, BorderKeys)
    {
      raised := ApplyColoursAndFont(widget, style);
      if !raised {
        ApplyBox(widget, style);
      }
    }
  }

  /** A button whose background was never set starts its colour tween from
      white, whatever the toolkit would answer. */
  lemma UnsetBackgroundStartsWhite(b: Button, native: Option<Rgb>)
    requires b.widget.Cget("bg") == "" && b.widget.Cget("background") == ""
    ensures ColorToRgb(b.StartBg(), native) == White
  {
    WhiteParses();
  }
}
