/** `Switch`: a check button whose text follows a boolean variable, with the
    geometry filter, background and move tweens, and style application. */
module Switches {
  import opened Values
  import opened Colors
  import opened Geometry
  import opened Toolkit
  import opened Tweens
  import opened Styles

  class Switch {
    const widget: Widget
    const onText: string
    const offText: string
    /** Whether a (truthy) `command` was given. */
    const hasCommand: bool
    /** The value of the `BooleanVar` behind the check button. */
    var on: bool
    /** How many times the user's command has been called. */
    var commandCalls: nat

    /** The text shown matches the variable. */
    predicate ShowsState()
      reads this, widget
    {
      "text" in widget.options && widget.options["text"] == Str(if on then onText else offText)
    }

    /** A new switch is off and shows `offText`. */
    constructor (onText: string, offText: string, hasCommand: bool)
      ensures fresh(widget) && widget.manager == Unmanaged
      ensures this.onText == onText && this.offText == offText && this.hasCommand == hasCommand
      ensures !on && commandCalls == 0
      ensures widget.options == map["text" := Str(offText)]
      ensures ShowsState()
    {
      widget := new Widget(map["text" := Str(offText)]);
      this.onText, this.offText, this.hasCommand := onText, offText, hasCommand;
      on, commandCalls := false, 0;
    }

    /** `is_on`. */
    function IsOn(): bool
      reads this
    {
      on
    }

    /** `set_on`: the variable takes the value and the text follows it. */
    method SetOn(value: bool)
      modifies this`on, widget`options
      ensures IsOn() == value && ShowsState()
      ensures widget.options == old(widget.options)["text" := Str(if value then onText else offText)]
    {
      on := value;
      if value {
        widget.Configure(map["text" := Str(onText)]);
      } else {
        widget.Configure(map["text" := Str(offText)]);
      }
    }

    /** The closure `_toggle_command` builds: the text is set from the
        variable, then the user's command, if any, is called once. */
    method Toggle()
      modifies this`commandCalls, widget`options
      ensures ShowsState()
      ensures widget.options == old(widget.options)["text" := Str(if on then onText else offText)]
      ensures commandCalls == old(commandCalls) + (if hasCommand then 1 else 0)
    {
      if on {
        widget.Configure(map["text" := Str(onText)]);
      } else {
        widget.Configure(map["text" := Str(offText)]);
      }
      if hasCommand {
        commandCalls := commandCalls + 1;
      }
    }

    /** A click on the check button as the toolkit performs it: the variable
        flips, then the toggle closure runs. */
    method Click()
      modifies this`on, this`commandCalls, widget`options
      ensures IsOn() == !old(IsOn()) && ShowsState()
      ensures widget.options == old(widget.options)["text" := Str(if on then onText else offText)]
      ensures commandCalls == old(commandCalls) + (if hasCommand then 1 else 0)
    {
      on := !on;
      Toggle();
    }

    method Pack(kwargs: map<string, Value>)
      modifies widget`manager, widget`geometry
      ensures widget.manager == Packed && widget.geometry == Filtered(kwargs)
    {
      var filtered := FilterGeomKwargs(kwargs);
      widget.Manage(Packed, filtered);
    }

    method Grid(kwargs: map<string, Value>)
      modifies widget`manager, widget`geometry
      ensures widget.manager == Gridded && widget.geometry == Filtered(kwargs)
    {
      var filtered := FilterGeomKwargs(kwargs);
      widget.Manage(Gridded, filtered);
    }

    method Place(kwargs: map<string, Value>)
      modifies widget`manager, widget`geometry
      ensures widget.manager == Placed && widget.geometry == Filtered(kwargs)
    {
      var filtered := FilterGeomKwargs(kwargs);
      widget.Manage(Placed, filtered);
    }

    /** `cget('bg') or cget('background') or '#ffffff'`. */
    function StartBg(): (c: string)
      reads widget
      ensures c != ""
      ensures c == widget.Cget("bg") || c == widget.Cget("background") || c == "#ffffff"
      ensures widget.Cget("bg") != "" ==> c == widget.Cget("bg")
      ensures widget.Cget("bg") == "" && widget.Cget("background") != "" ==> c == widget.Cget("background")
      ensures widget.Cget("bg") == "" && widget.Cget("background") == "" ==> c == "#ffffff"
    {
      if widget.Cget("bg") != "" then widget.Cget("bg")
      else if widget.Cget("background") != "" then widget.Cget("background")
      else "#ffffff"
    }

    /** `animate_bg`: a tween of `bg` from the current background to `toColour`. */
    method AnimateBg(toColour: string, duration: real, steps: Option<int>,
                     startNative: Option<Rgb>, endNative: Option<Rgb>) returns (tween: ColorTween)
      ensures fresh(tween) && tween.widget == widget && tween.option == "bg"
      ensures tween.startRgb == ColorToRgb(StartBg(), startNative)
      ensures tween.endRgb == ColorToRgb(toColour, endNative)
      ensures tween.steps == StepsFor(duration, steps) && tween.duration == duration
      ensures tween.step == 0 && !tween.cancelled && tween.pending
    {
      tween := AnimateColour(widget, "bg", StartBg(), toColour, duration, steps, startNative, endNative);
    }

    /** `animate_move`; `position` is the answer of `winfo_x` / `winfo_y`. */
    method AnimateMove(toX: int, toY: int, duration: real, steps: Option<int>,
                       position: Option<(int, int)>) returns (handle: MoveHandle)
      ensures position.None? ==> handle == NoOpCancel
      ensures position.Some? && StepsFor(duration, steps) == 0 ==> handle == Raised
      ensures position.Some? && StepsFor(duration, steps) != 0 ==>
        && handle.Cancellable? && fresh(handle.tween) && handle.tween.widget == widget
        && handle.tween.currentX == position.value.0 && handle.tween.currentY == position.value.1
        && handle.tween.toX == toX && handle.tween.toY == toY
        && handle.tween.steps == StepsFor(duration, steps) && handle.tween.duration == duration
        && handle.tween.step == 0 && !handle.tween.cancelled && handle.tween.pending
    {
      handle := Tweens.AnimateMove(widget, toX, toY, duration, steps, position);
    }

    /** `apply_style`: the same keys as the button's, in the same order. */
    method ApplyStyle(style: map<string, Value>) returns (raised: bool)
      modifies widget`options
      ensures raised == FontRaises(style)
      ensures raised ==> widget.options == old(widget.options) + Restrict(style, ColourKeys)
      ensures !raised ==>
        widget.options == old(widget.options) + Restrict(style, ColourKeys) + FontWrites(style)
                          + PaddingWrites(style) + Restrict(style, BorderKeys)
    {
      raised := ApplyColoursAndFont(widget, style);
      if !raised {
        ApplyBox(widget, style);
      }
    }
  }

  /** Two clicks bring the switch back to its state and its text. */
  method TwoClicks(s: Switch)
    requires s.ShowsState()
    modifies s`on, s`commandCalls, s.widget`options
    ensures s.on == old(s.on) && s.ShowsState()
    ensures s.widget.options == old(s.widget.options)
  {
    s.Click();
    s.Click();
    assert s.widget.options == old(s.widget.options)["text" := old(s.widget.options)["text"]];
  }

  /** A `padding` list or tuple with two or more elements sets `padx` and
      `pady` to its first two elements; any other value sets both to itself. */
  lemma PaddingStyle(style: map<string, Value>)
    requires "padding" in style
    ensures var p := style["padding"];
      p.Items? && |p.elems| >= 2 ==>
        PaddingWrites(style) == map["padx" := p.elems[0], "pady" := p.elems[1]]
    ensures var p := style["padding"];
      !(p.Items? && |p.elems| >= 2) ==> PaddingWrites(style) == map["padx" := p, "pady" := p]
  {
  }
}
