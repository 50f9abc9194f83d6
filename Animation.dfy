/** `Animation`: a time-driven session that feeds eased progress to an update
    function every 16 ms until the duration has elapsed, and the three
    ready-made sessions `animate_color`, `animate_move` and `animate_opacity`.
    The clock is a parameter of every operation that reads it; `after(16, ...)`
    is a count of frames waiting on the event loop. */
module Animations {
  import opened Values
  import opened Numerals
  import opened Colors
  import opened Toolkit
  import opened Tweens

  /** `_ease`: three polynomial curves selected by name; any other name is linear. */
  function Ease(easing: string, t: real): real
  {
    if easing == "ease_in_out" then t * t * (3.0 - 2.0 * t)
    else if easing == "ease_out" then 1.0 - (1.0 - t) * (1.0 - t)
    else if easing == "ease_in" then t * t
    else t
  }

  /** Every curve starts at 0 and ends at 1. */
  lemma EaseEndpoints(easing: string)
    ensures Ease(easing, 0.0) == 0.0 && Ease(easing, 1.0) == 1.0
  {
  }

  /** The half-way values that tell the curves apart. */
  lemma EaseHalfway()
    ensures Ease("ease_in", 0.5) == 0.25
    ensures Ease("ease_out", 0.5) == 0.75
    ensures Ease("ease_in_out", 0.5) == 0.5
    ensures Ease("linear", 0.5) == 0.5
  {
  }

  lemma ProductInUnit(x: real, y: real)
    requires 0.0 <= x <= 1.0 && 0.0 <= y <= 1.0
    ensures 0.0 <= x * y <= x && x * y <= y
  {
    assert x * (1.0 - y) >= 0.0 by { MulNonNegative(x, 1.0 - y); }
    assert y * (1.0 - x) >= 0.0 by { MulNonNegative(y, 1.0 - x); }
  }

  /** Each curve maps [0, 1] into [0, 1]. */
  lemma EaseInUnit(easing: string, t: real)
    requires 0.0 <= t <= 1.0
    ensures 0.0 <= Ease(easing, t) <= 1.0
  {
    ProductInUnit(t, t);
    ProductInUnit(1.0 - t, 1.0 - t);
    if easing == "ease_in_out" {
      var sq := t * t;
      assert t * t * (3.0 - 2.0 * t) == sq * (3.0 - 2.0 * t);
      assert 1.0 <= 3.0 - 2.0 * t <= 3.0;
      MulNonNegative(sq, 3.0 - 2.0 * t);
      // 1 - (3t^2 - 2t^3) = (1 - t)^2 (1 + 2t)
      assert 1.0 - sq * (3.0 - 2.0 * t) == (1.0 - t) * (1.0 - t) * (1.0 + 2.0 * t);
      MulNonNegative((1.0 - t) * (1.0 - t), 1.0 + 2.0 * t);
    }
  }

  lemma SmoothstepFactorBound(s: real, t: real)
    requires 0.0 <= s <= t <= 1.0
    ensures 2.0 * (t * t + t * s + s * s) <= 3.0 * (t + s)
  {
    var tt, ts, ss := t * t, t * s, s * s;
    assert tt <= t by { AtMostFactor(t, t); }
    assert ss <= s by { AtMostFactor(s, s); }
    assert ts <= t by { AtMostFactor(t, s); }
    assert ts <= s by { AtMostFactor(s, t); assert s * t == ts; }
    SumBound(s, t, tt, ts, ss);
  }

  lemma SumBound(s: real, t: real, tt: real, ts: real, ss: real)
    requires tt <= t && ss <= s && ts <= t && ts <= s
    ensures 2.0 * (tt + ts + ss) <= 3.0 * (t + s)
  {
  }

  lemma AtMostFactor(x: real, y: real)
    requires 0.0 <= x && y <= 1.0
    ensures x * y <= x
  {
    MulNonNegative(x, 1.0 - y);
  }

  /** `t * t * (3 - 2 * t)` is non-decreasing on [0, 1]. */
  lemma SmoothstepMonotone(s: real, t: real)
    requires 0.0 <= s <= t <= 1.0
    ensures s * s * (3.0 - 2.0 * s) <= t * t * (3.0 - 2.0 * t)
  {
    // f(t) - f(s) = (t - s) (3 (t + s) - 2 (t^2 + t s + s^2))
    var d := t - s;
    var g := 3.0 * (t + s) - 2.0 * (t * t + t * s + s * s);
    assert g >= 0.0 by {
      SmoothstepFactorBound(s, t);
    }
    assert t * t * (3.0 - 2.0 * t) - s * s * (3.0 - 2.0 * s) == d * g;
    MulNonNegative(d, g);
  }

  /** Each curve is non-decreasing on [0, 1], so eased progress never goes back. */
  lemma EaseMonotone(easing: string, s: real, t: real)
    requires 0.0 <= s <= t <= 1.0
    ensures Ease(easing, s) <= Ease(easing, t)
  {
    var d := t - s;
    if easing == "ease_in_out" {
      SmoothstepMonotone(s, t);
    } else if easing == "ease_out" {
      assert Ease(easing, t) - Ease(easing, s) == d * (2.0 - t - s);
      MulNonNegative(d, 2.0 - t - s);
    } else if easing == "ease_in" {
      assert Ease(easing, t) - Ease(easing, s) == d * (t + s);
      MulNonNegative(d, t + s);
    }
  }

  /** `min(elapsed / duration, 1.0)`; a zero duration raises
      `ZeroDivisionError`, which the caller handles. */
  function Progress(elapsed: real, duration: real): (p: real)
    requires duration != 0.0
    ensures p <= 1.0
    ensures p == 1.0 <==> elapsed / duration >= 1.0
    ensures p < 1.0 ==> p == elapsed / duration
  {
    if elapsed / duration < 1.0 then elapsed / duration else 1.0
  }

  /** With a positive duration, progress grows with elapsed time and stays in
      [0, 1] once the clock has not run backwards. */
  lemma ProgressMonotone(e1: real, e2: real, duration: real)
    requires duration > 0.0 && 0.0 <= e1 <= e2
    ensures 0.0 <= Progress(e1, duration) <= Progress(e2, duration) <= 1.0
  {
    assert e1 / duration <= e2 / duration by {
      assert e2 / duration - e1 / duration == (e2 - e1) / duration;
    }
  }

  /** Progress is exactly 1 once the whole duration has elapsed. */
  lemma ProgressReachesOne(elapsed: real, duration: real)
    requires 0.0 < duration <= elapsed
    ensures Progress(elapsed, duration) == 1.0
  {
    var q := elapsed / duration;
    assert q * duration == elapsed;
  }

  /** A negative duration never completes: on a clock that does not run
      backwards, `elapsed / duration` is never positive, so the frame is
      re-armed for ever. */
  lemma NegativeDurationNeverCompletes(elapsed: real, duration: real)
    requires duration < 0.0 <= elapsed
    ensures Progress(elapsed, duration) <= 0.0 < 1.0
  {
    assert elapsed / duration == -(elapsed / -duration);
    assert elapsed / -duration >= 0.0;
  }

  /** `int(c1 + (c2 - c1) * progress) // 256`: one 8-bit channel of a colour
      frame, from the toolkit's 16-bit channels. */
  function ColorChannel(c1: int, c2: int, p: real): int
  {
    Trunc(Mix(c1, c2, p)) / 256
  }

  /** `f"#{r:02x}{g:02x}{b:02x}"` of the three channels at `progress`. */
  function ColorFrameHex(from16: Rgb, to16: Rgb, p: real): string
  {
    "#" + Hex02(ColorChannel(from16.r, to16.r, p))
        + Hex02(ColorChannel(from16.g, to16.g, p))
        + Hex02(ColorChannel(from16.b, to16.b, p))
  }

  /** `int(from + (to - from) * progress)`. */
  function MovePoint(from: int, to: int, p: real): int
  {
    Trunc(Mix(from, to, p))
  }

  /** `from + (to - from) * progress`. */
  function OpacityAt(from: real, to: real, p: real): real
  {
    from + (to - from) * p
  }

  /** `duration / 1000.0`: the ready-made sessions take milliseconds. */
  function DurationSeconds(ms: real): (s: real)
    ensures s * 1000.0 == ms
  {
    ms / 1000.0
  }

  /** The colour channel at 0 is the start channel and at 1 the end channel,
      each scaled down to 8 bits. */
  lemma ColorChannelEndpoints(c1: int, c2: int)
    ensures ColorChannel(c1, c2, 0.0) == c1 / 256
    ensures ColorChannel(c1, c2, 1.0) == c2 / 256
  {
    assert Mix(c1, c2, 0.0) == c1 as real;
    assert Mix(c1, c2, 1.0) == c2 as real;
  }

  /** Between two 16-bit colours every frame is a well-formed `#rrggbb`
      whose channels lie between the ends' 8-bit channels. */
  lemma ColorFrameCanonical(from16: Rgb, to16: Rgb, p: real)
    requires IsWordRgb(from16) && IsWordRgb(to16) && 0.0 <= p <= 1.0
    ensures IsCanonicalHex(ColorFrameHex(from16, to16, p))
    ensures HexToRgb(ColorFrameHex(from16, to16, p)) == Some(Rgb(
      ColorChannel(from16.r, to16.r, p), ColorChannel(from16.g, to16.g, p), ColorChannel(from16.b, to16.b, p)))
    ensures Between(ColorChannel(from16.r, to16.r, p), from16.r / 256, to16.r / 256)
    ensures Between(ColorChannel(from16.g, to16.g, p), from16.g / 256, to16.g / 256)
    ensures Between(ColorChannel(from16.b, to16.b, p), from16.b / 256, to16.b / 256)
  {
    var q := Rgb(ColorChannel(from16.r, to16.r, p), ColorChannel(from16.g, to16.g, p), ColorChannel(from16.b, to16.b, p));
    ChannelBetween(from16.r, to16.r, p);
    ChannelBetween(from16.g, to16.g, p);
    ChannelBetween(from16.b, to16.b, p);
    assert IsByteRgb(q);
    assert Trunc(q.r as real) == q.r && Trunc(q.g as real) == q.g && Trunc(q.b as real) == q.b;
    assert ColorFrameHex(from16, to16, p) == RgbToHex(ToReal(q));
    HexRoundTrip(q);
  }

  /** One 16-bit channel blended and scaled is a byte between the ends' bytes. */
  lemma ChannelBetween(c1: int, c2: int, p: real)
    requires 0 <= c1 < 65536 && 0 <= c2 < 65536 && 0.0 <= p <= 1.0
    ensures 0 <= ColorChannel(c1, c2, p) < 256
    ensures Between(ColorChannel(c1, c2, p), c1 / 256, c2 / 256)
  {
    TruncMixBetween(c1, c2, p);
    var v := Trunc(Mix(c1, c2, p));
    if c1 <= c2 {
      DivMonotone(c1, v);
      DivMonotone(v, c2);
    } else {
      DivMonotone(c2, v);
      DivMonotone(v, c1);
    }
  }

  lemma DivMonotone(a: int, b: int)
    requires 0 <= a <= b
    ensures a / 256 <= b / 256
  {
  }

  /** Half-way from black to white is `#7f7f7f`: 65535 / 2 truncates to
      32767, which is 127 after `// 256`. */
  lemma BlackToWhiteHalfway()
    ensures ColorFrameHex(Rgb(0, 0, 0), Rgb(65535, 65535, 65535), 0.5) == "#7f7f7f"
  {
    assert Mix(0, 65535, 0.5) == 32767.5;
    assert Trunc(32767.5) == 32767;
    assert ColorChannel(0, 65535, 0.5) == 127;
    assert Numeral(127, 16) == "7f" by {
      assert Numeral(7, 16) == "7";
    }
  }

  /** The moving point is at `from` at progress 0 and at `to` at progress 1,
      and between them in between. */
  lemma MovePointEnds(from: int, to: int, p: real)
    requires 0.0 <= p <= 1.0
    ensures MovePoint(from, to, 0.0) == from && MovePoint(from, to, 1.0) == to
    ensures Between(MovePoint(from, to, p), from, to)
  {
    assert Mix(from, to, 0.0) == from as real;
    assert Mix(from, to, 1.0) == to as real;
    TruncMixBetween(from, to, p);
  }

  /** The opacity is `from` at progress 0 and `to` at progress 1, and between
      them in between. */
  lemma OpacityEnds(from: real, to: real, p: real)
    requires 0.0 <= p <= 1.0
    ensures OpacityAt(from, to, 0.0) == from && OpacityAt(from, to, 1.0) == to
    ensures from <= to ==> from <= OpacityAt(from, to, p) <= to
    ensures to <= from ==> to <= OpacityAt(from, to, p) <= from
  {
    var d := to - from;
    if d >= 0.0 {
      MulNonNegative(d, p);
      MulNonNegative(d, 1.0 - p);
    } else {
      MulNonNegative(-d, p);
      MulNonNegative(-d, 1.0 - p);
    }
  }

  /** What the update function of a session does with the eased progress. */
  datatype Effect =
    | Custom
      /** `animate_color`: the 16-bit answers of `winfo_rgb` for the two colours. */
    | ColorFade(from16: Rgb, to16: Rgb, target: string)
      /** `animate_move`: `place(x=..., y=...)`. */
    | Slide(fromX: int, fromY: int, toX: int, toY: int)
      /** `animate_opacity`: `attributes("-alpha", ...)`. */
    | Fade(from: real, to: real)
  {
    /** The widget after one call of the update function with eased
        progress `p`. Each effect writes one part of the widget and leaves the
        rest as it was; a user's own update function acts outside the widget
        record. */
    function Apply(look: Look, p: real): (after: Look)
      ensures Custom? ==> after == look
      ensures !ColorFade? ==> after.options == look.options
      ensures !Slide? ==> after.manager == look.manager && after.geometry == look.geometry
      ensures !Slide? ==> after.x == look.x && after.y == look.y
      ensures !Fade? ==> after.alpha == look.alpha
      ensures ColorFade? ==> after.options == look.options[target := Str(ColorFrameHex(from16, to16, p))]
      ensures Slide? ==> after.x == MovePoint(fromX, toX, p) && after.y == MovePoint(fromY, toY, p)
      ensures Slide? ==> after.manager == Placed && after.geometry == map["x" := Int(after.x), "y" := Int(after.y)]
      ensures Fade? ==> after.alpha == OpacityAt(from, to, p)
    {
      match this
      case Custom => look
      case ColorFade(from16, to16, target) =>
        look.(options := look.options[target := Str(ColorFrameHex(from16, to16, p))])
      case Slide(fromX, fromY, toX, toY) =>
        var nx, ny := MovePoint(fromX, toX, p), MovePoint(fromY, toY, p);
        look.(x := nx, y := ny, manager := Placed, geometry := map["x" := Int(nx), "y" := Int(ny)])
      case Fade(from, to) =>
        look.(alpha := OpacityAt(from, to, p))
    }
  }

  /** What each ready-made update function writes for progress in [0, 1]: a
      canonical colour whose channels lie between the ends', a position in the
      box spanned by the two points, or an opacity between the two given. */
  lemma EffectWrites(e: Effect, look: Look, p: real)
    requires 0.0 <= p <= 1.0
    requires e.ColorFade? ==> IsWordRgb(e.from16) && IsWordRgb(e.to16)
    ensures e.ColorFade? ==>
      var c := e.Apply(look, p).options[e.target];
      && c.Str? && IsCanonicalHex(c.s) && HexToRgb(c.s).Some?
      && Between(HexToRgb(c.s).value.r, e.from16.r / 256, e.to16.r / 256)
      && Between(HexToRgb(c.s).value.g, e.from16.g / 256, e.to16.g / 256)
      && Between(HexToRgb(c.s).value.b, e.from16.b / 256, e.to16.b / 256)
    ensures e.Slide? ==>
      && Between(e.Apply(look, p).x, e.fromX, e.toX)
      && Between(e.Apply(look, p).y, e.fromY, e.toY)
    ensures e.Fade? && e.from <= e.to ==> e.from <= e.Apply(look, p).alpha <= e.to
    ensures e.Fade? && e.to <= e.from ==> e.to <= e.Apply(look, p).alpha <= e.from
  {
    match e
    case Custom =>
    case ColorFade(from16, to16, target) =>
      ColorFrameCanonical(from16, to16, p);
    case Slide(fromX, fromY, toX, toY) =>
      MovePointEnds(fromX, toX, p);
      MovePointEnds(fromY, toY, p);
    case Fade(from, to) =>
      OpacityEnds(from, to, p);
  }

  class Animation {
    const widget: Widget
    /** In seconds. */
    const duration: real
    const easing: string
    const effect: Effect
    /** Whether an `on_complete` callback was given. */
    const hasOnComplete: bool
    var startTime: Option<real>
    var running: bool
    /** Frames waiting on the event loop (`after(16, self._step)`). */
    var scheduled: nat
    /** Every eased value handed to the update function, in order. */
    var updates: seq<real>
    /** How many times `on_complete` was called. */
    var completions: nat
    ghost var starts: nat
    ghost var finishes: nat

    /** A running session has a start time; each start finishes at most once,
        and `on_complete` is called once per finish. */
    ghost predicate Valid()
      reads this
    {
      && (running ==> startTime.Some?)
      && finishes + (if running then 1 else 0) <= starts
      && completions == (if hasOnComplete then finishes else 0)
    }

    /** `on_complete` is never called more often than the session was started. */
    lemma CompletionsBounded()
      requires Valid()
      ensures completions <= starts
    {
    }

    /** A new session is not running and has done nothing. */
    constructor (widget: Widget, duration: real, effect: Effect, hasOnComplete: bool, easing: string)
      ensures Valid()
      ensures this.widget == widget && this.duration == duration && this.effect == effect
      ensures this.hasOnComplete == hasOnComplete && this.easing == easing
      ensures startTime == None && !running && scheduled == 0 && updates == [] && completions == 0
      ensures starts == 0 && finishes == 0
    {
      this.widget, this.duration, this.effect := widget, duration, effect;
      this.hasOnComplete, this.easing := hasOnComplete, easing;
      startTime, running, scheduled, updates, completions := None, false, 0, [], 0;
      starts, finishes := 0, 0;
    }

    /** One call of the update function. */
    method Update(eased: real)
      modifies this`updates, widget`options, widget`x, widget`y, widget`manager, widget`geometry, widget`alpha
      ensures updates == old(updates) + [eased]
      ensures widget.Snapshot() == effect.Apply(old(widget.Snapshot()), eased)
    {
      updates := updates + [eased];
      match effect
      case Custom =>
      case ColorFade(from16, to16, target) =>
        widget.Configure(map[target := Str(ColorFrameHex(from16, to16, eased))]);
      case Slide(fromX, fromY, toX, toY) =>
        widget.MoveTo(MovePoint(fromX, toX, eased), MovePoint(fromY, toY, eased));
      case Fade(from, to) =>
        widget.SetAlpha(OpacityAt(from, to, eased));
    }

    /** `_step` with the clock reading `now`. A stopped session does nothing;
        a zero duration raises before the update; otherwise the update runs
        with the eased progress and the frame is re-armed exactly when
        progress is below 1, the session finishing (and `on_complete` being
        called) otherwise. */
    method Step(now: real) returns (raised: bool)
      requires Valid()
      modifies this`running, this`scheduled, this`updates, this`completions, this`finishes
      modifies widget`options, widget`x, widget`y, widget`manager, widget`geometry, widget`alpha
      ensures Valid()
      ensures !old(running) || duration == 0.0 ==>
        && raised == (old(running) && duration == 0.0)
        && running == old(running) && scheduled == old(scheduled) && updates == old(updates)
        && completions == old(completions) && widget.Snapshot() == old(widget.Snapshot())
      ensures starts == old(starts)
      ensures finishes == old(finishes) + (if old(running) && !running then 1 else 0)
      ensures old(running) && duration != 0.0 ==>
        var p := Progress(now - startTime.value, duration);
        && !raised
        && updates == old(updates) + [Ease(easing, p)]
        && widget.Snapshot() == effect.Apply(old(widget.Snapshot()), Ease(easing, p))
        && running == (p < 1.0)
        && scheduled == old(scheduled) + (if p < 1.0 then 1 else 0)
        && completions == old(completions) + (if p == 1.0 && hasOnComplete then 1 else 0)
    {
      if !running {
        return false;
      }
      if duration == 0.0 {
        return true;
      }
      var elapsed := now - startTime.value;
      var progress := Progress(elapsed, duration);
      var eased := Ease(easing, progress);
      Update(eased);
      raised := false;
      if progress < 1.0 {
        scheduled := scheduled + 1;
      } else {
        running := false;
        finishes := finishes + 1;
        if hasOnComplete {
          completions := completions + 1;
        }
      }
    }

    /** `start`: the clock is read once for the start time (`startNow`) and
        once more by the first frame, which runs at once (`frameNow`). */
    method Start(startNow: real, frameNow: real) returns (raised: bool)
      requires Valid()
      modifies this`startTime, this`running, this`starts
      modifies this`scheduled, this`updates, this`completions, this`finishes
      modifies widget`options, widget`x, widget`y, widget`manager, widget`geometry, widget`alpha
      ensures Valid()
      ensures startTime == Some(startNow)
      ensures starts == old(starts) + 1
      ensures finishes == old(finishes) + (if running then 0 else 1)
      ensures duration == 0.0 ==>
        && raised && running && updates == old(updates)
        && scheduled == old(scheduled) && completions == old(completions)
        && widget.Snapshot() == old(widget.Snapshot())
      ensures duration != 0.0 ==>
        var p := Progress(frameNow - startNow, duration);
        && !raised
        && updates == old(updates) + [Ease(easing, p)]
        && widget.Snapshot() == effect.Apply(old(widget.Snapshot()), Ease(easing, p))
        && running == (p < 1.0)
        && scheduled == old(scheduled) + (if p < 1.0 then 1 else 0)
        && completions == old(completions) + (if p == 1.0 && hasOnComplete then 1 else 0)
    {
      startTime := Some(startNow);
      running := true;
      starts := starts + 1;
      raised := Step(frameNow);
    }

    /** The event loop runs one of the frames waiting for it. */
    method Fire(now: real) returns (raised: bool)
      requires Valid() && scheduled > 0
      modifies this`running, this`scheduled, this`updates, this`completions, this`finishes
      modifies widget`options, widget`x, widget`y, widget`manager, widget`geometry, widget`alpha
      ensures Valid()
      ensures starts == old(starts)
      ensures finishes == old(finishes) + (if old(running) && !running then 1 else 0)
      ensures !old(running) ==>
        && !raised && !running && scheduled == old(scheduled) - 1 && updates == old(updates)
        && completions == old(completions) && widget.Snapshot() == old(widget.Snapshot())
      ensures old(running) && duration == 0.0 ==>
        && raised && running && scheduled == old(scheduled) - 1 && updates == old(updates)
        && completions == old(completions) && widget.Snapshot() == old(widget.Snapshot())
      ensures old(running) && duration != 0.0 ==>
        var p := Progress(now - startTime.value, duration);
        && !raised
        && updates == old(updates) + [Ease(easing, p)]
        && widget.Snapshot() == effect.Apply(old(widget.Snapshot()), Ease(easing, p))
        && running == (p < 1.0)
        && scheduled == old(scheduled) - 1 + (if p < 1.0 then 1 else 0)
        && completions == old(completions) + (if p == 1.0 && hasOnComplete then 1 else 0)
    {
      scheduled := scheduled - 1;
      raised := Step(now);
    }

    /** `stop`: every later frame does nothing. */
    method Stop()
      requires Valid()
      modifies this`running
      ensures Valid() && !running
      ensures starts == old(starts) && finishes == old(finishes) && completions == old(completions)
    {
      running := false;
    }
  }

  /** `Animation.animate_color`: a linear session over `duration` ms that
      fades `target` between the toolkit's 16-bit values of the two
      colours; it is started at once. */
  method AnimateColor(widget: Widget, from16: Rgb, to16: Rgb, durationMs: real, target: string,
                      startNow: real, frameNow: real) returns (a: Animation, raised: bool)
    modifies widget`options, widget`x, widget`y, widget`manager, widget`geometry, widget`alpha
    ensures fresh(a) && a.Valid() && a.widget == widget && a.easing == "linear" && !a.hasOnComplete
    ensures a.duration == DurationSeconds(durationMs) && a.effect == ColorFade(from16, to16, target)
    ensures a.startTime == Some(startNow) && raised == (durationMs == 0.0)
    ensures raised ==>
      && a.running && a.scheduled == 0 && a.updates == [] && a.completions == 0
      && widget.Snapshot() == old(widget.Snapshot())
    ensures !raised ==>
      var p := Progress(frameNow - startNow, a.duration);
      && a.updates == [p] && a.running == (p < 1.0) && a.scheduled == (if p < 1.0 then 1 else 0)
      && a.completions == 0
      && widget.Snapshot() == a.effect.Apply(old(widget.Snapshot()), p)
  {
    a := new Animation(widget, DurationSeconds(durationMs), ColorFade(from16, to16, target), false, "linear");
    raised := a.Start(startNow, frameNow);
  }

  /** `Animation.animate_move`: a linear session that places the widget on the
      line from `from` to `to`. */
  method AnimateMove(widget: Widget, from: (int, int), to: (int, int), durationMs: real,
                     startNow: real, frameNow: real) returns (a: Animation, raised: bool)
    modifies widget`options, widget`x, widget`y, widget`manager, widget`geometry, widget`alpha
    ensures fresh(a) && a.Valid() && a.widget == widget && a.easing == "linear" && !a.hasOnComplete
    ensures a.duration == DurationSeconds(durationMs) && a.effect == Slide(from.0, from.1, to.0, to.1)
    ensures a.startTime == Some(startNow) && raised == (durationMs == 0.0)
    ensures raised ==>
      && a.running && a.scheduled == 0 && a.updates == [] && a.completions == 0
      && widget.Snapshot() == old(widget.Snapshot())
    ensures !raised ==>
      var p := Progress(frameNow - startNow, a.duration);
      && a.updates == [p] && a.running == (p < 1.0) && a.scheduled == (if p < 1.0 then 1 else 0)
      && a.completions == 0
      && widget.Snapshot() == a.effect.Apply(old(widget.Snapshot()), p)
  {
    a := new Animation(widget, DurationSeconds(durationMs), Slide(from.0, from.1, to.0, to.1), false, "linear");
    raised := a.Start(startNow, frameNow);
  }

  /** `Animation.animate_opacity`: a linear session over the window's alpha. */
  method AnimateOpacity(window: Widget, from: real, to: real, durationMs: real,
                        startNow: real, frameNow: real) returns (a: Animation, raised: bool)
    modifies window`options, window`x, window`y, window`manager, window`geometry, window`alpha
    ensures fresh(a) && a.Valid() && a.widget == window && a.easing == "linear" && !a.hasOnComplete
    ensures a.duration == DurationSeconds(durationMs) && a.effect == Fade(from, to)
    ensures a.startTime == Some(startNow) && raised == (durationMs == 0.0)
    ensures raised ==>
      && a.running && a.scheduled == 0 && a.updates == [] && a.completions == 0
      && window.Snapshot() == old(window.Snapshot())
    ensures !raised ==>
      var p := Progress(frameNow - startNow, a.duration);
      && a.updates == [p] && a.running == (p < 1.0) && a.scheduled == (if p < 1.0 then 1 else 0)
      && a.completions == 0
      && window.Snapshot() == a.effect.Apply(old(window.Snapshot()), p)
  {
    a := new Animation(window, DurationSeconds(durationMs), Fade(from, to), false, "linear");
    raised := a.Start(startNow, frameNow);
  }
}
