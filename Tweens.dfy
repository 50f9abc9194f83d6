/** The step-counted tweens behind `animate_bg`, `animate_fg` and
    `animate_move` of every widget class. In the source each is a `tick`
    closure over a `nonlocal step` counter and a `cancelled` flag, re-armed with
    `widget.after(...)`; here each is an object whose `pending` flag says
    whether a tick is scheduled. */
module Tweens {
  import opened Values
  import opened Numerals
  import opened Colors
  import opened Toolkit

  /** `max(2, int(duration / 20))`: the step count when the caller gives none,
      one step per whole 20 ms of the duration and never fewer than two. */
  function DefaultSteps(duration: real): (n: int)
    ensures n >= 2
    ensures duration < 60.0 ==> n == 2
    ensures duration >= 60.0 ==> n as real * 20.0 <= duration < (n + 1) as real * 20.0
  {
    var t := Trunc(duration / 20.0);
    if t > 2 then t else 2
  }

  /** The default duration of 300 ms gives 15 steps, and 200 ms gives 10. */
  lemma DefaultStepsExamples()
    ensures DefaultSteps(300.0) == 15 && DefaultSteps(200.0) == 10
  {
    DefaultStepsUnique(300.0, 15);
    DefaultStepsUnique(200.0, 10);
  }

  /** A step count `k` with `20 k <= duration < 20 (k + 1)`, at least 3, is the
      default one. */
  lemma DefaultStepsUnique(duration: real, k: int)
    requires k >= 3 && k as real * 20.0 <= duration < (k + 1) as real * 20.0
    ensures DefaultSteps(duration) == k
  {
    var n := DefaultSteps(duration);
    assert n as real * 20.0 <= duration < (n + 1) as real * 20.0;
    assert n as real < (k + 1) as real && k as real < (n + 1) as real;
  }

  /** The caller's `steps`, or the default when it is `None`. */
  function StepsFor(duration: real, steps: Option<int>): int
  {
    match steps
    case Some(n) => n
    case None => DefaultSteps(duration)
  }

  /** One channel of `start + (end - start) * t`. */
  function Mix(a: int, b: int, t: real): real
  {
    a as real + (b - a) as real * t
  }

  /** The colour a tick computes before formatting it. */
  function Blend(s: Rgb, e: Rgb, t: real): RealRgb
  {
    RealRgb(Mix(s.r, e.r, t), Mix(s.g, e.g, t), Mix(s.b, e.b, t))
  }

  predicate Between(v: int, a: int, b: int)
  {
    (a <= v <= b) || (b <= v <= a)
  }

  /** For `t` in [0, 1] the blend stays between its two ends. */
  lemma MixBetween(a: int, b: int, t: real)
    requires 0.0 <= t <= 1.0
    ensures a <= b ==> a as real <= Mix(a, b, t) <= b as real
    ensures b <= a ==> b as real <= Mix(a, b, t) <= a as real
  {
    var d := (b - a) as real;
    if d >= 0.0 {
      assert 0.0 <= d * t;
      assert d * (1.0 - t) >= 0.0;
    } else {
      var u := -d;
      assert u * t >= 0.0;
      assert u * (1.0 - t) >= 0.0 by {
        MulNonNegative(u, 1.0 - t);
      }
    }
  }

  lemma DivSelf(n: int)
    requires n != 0
    ensures n as real / n as real == 1.0
  {
  }

  lemma DivZero(n: int)
    requires n != 0
    ensures 0 as real / n as real == 0.0
  {
  }

  lemma MulNonNegative(x: real, y: real)
    requires x >= 0.0 && y >= 0.0
    ensures x * y >= 0.0
  {
  }

  /** The blend at 0 is the start colour and at 1 the end colour. */
  lemma BlendEndpoints(s: Rgb, e: Rgb)
    ensures Blend(s, e, 0.0) == ToReal(s)
    ensures Blend(s, e, 1.0) == ToReal(e)
  {
  }

  /** A truncated blend channel lies between the two end channels. */
  lemma TruncMixBetween(a: int, b: int, t: real)
    requires 0.0 <= t <= 1.0
    ensures Between(Trunc(Mix(a, b, t)), a, b)
  {
    MixBetween(a, b, t);
    if a <= b {
      TruncBetween(Mix(a, b, t), a, b);
    } else {
      TruncBetween(Mix(a, b, t), b, a);
    }
  }

  /** Every colour a tick `k` in `0..steps` writes is a well-formed `#rrggbb`
      whose channels lie between those of the start and end colours. */
  lemma {:induction false} TickColourBetween(s: Rgb, e: Rgb, k: int, steps: int)
    requires IsByteRgb(s) && IsByteRgb(e)
    requires 0 <= k <= steps && steps > 0
    ensures var hex := RgbToHex(Blend(s, e, k as real / steps as real));
      IsCanonicalHex(hex)
      && HexToRgb(hex).Some?
      && Between(HexToRgb(hex).value.r, s.r, e.r)
      && Between(HexToRgb(hex).value.g, s.g, e.g)
      && Between(HexToRgb(hex).value.b, s.b, e.b)
  {
    var t := k as real / steps as real;
    assert 0.0 <= t <= 1.0;
    var c := Blend(s, e, t);
    TruncMixBetween(s.r, e.r, t);
    TruncMixBetween(s.g, e.g, t);
    TruncMixBetween(s.b, e.b, t);
    var q := Rgb(Trunc(c.r), Trunc(c.g), Trunc(c.b));
    assert IsByteRgb(q);
    assert RgbToHex(c) == RgbToHex(ToReal(q));
    HexRoundTrip(q);
  }

  /** The `tick` closure of `animate_bg` / `animate_fg`, with its captured state. */
  class ColorTween {
    const widget: Widget
    /** The option the tick writes: `"bg"` or `"fg"`. */
    const option: string
    const startRgb: Rgb
    const endRgb: Rgb
    const steps: int
    /** The animation's duration in milliseconds. */
    const duration: real
    var step: int
    var cancelled: bool
    /** A tick is scheduled with `after`. */
    var pending: bool

    /** The state right after `animate_bg` returns: counter at 0, not
        cancelled, and the first tick scheduled with `after(0, tick)`. */
    constructor (widget: Widget, option: string, startRgb: Rgb, endRgb: Rgb, steps: int, duration: real)
      ensures this.widget == widget && this.option == option
      ensures this.startRgb == startRgb && this.endRgb == endRgb
      ensures this.steps == steps && this.duration == duration
      ensures step == 0 && !cancelled && pending
    {
      this.widget, this.option := widget, option;
      this.startRgb, this.endRgb := startRgb, endRgb;
      this.steps, this.duration := steps, duration;
      step, cancelled, pending := 0, false, true;
    }

    /** The colour tick `k` writes: the blend at `t = k / steps`. */
    function ColourAt(k: int): string
      requires steps != 0
    {
      RgbToHex(Blend(startRgb, endRgb, k as real / steps as real))
    }

    /** One run of `tick`. A cancelled tween writes nothing and is not re-armed.
        With `steps == 0` the division `step / float(steps)` raises before
        anything is written, which also ends the chain. Otherwise the tick
        writes the blend for the current step, advances the counter and is
        re-armed after `int(duration / steps)` ms while the counter has not
        passed `steps`. */
    method Tick() returns (delay: Option<int>)
      modifies this`step, this`pending, widget`options
      ensures cancelled || steps == 0 ==>
        step == old(step) && widget.options == old(widget.options) && delay == None
      ensures !cancelled && steps != 0 ==>
        && widget.options == old(widget.options)[option := Str(ColourAt(old(step)))]
        && step == old(step) + 1
        && (delay.Some? <==> step <= steps)
        && (delay.Some? ==> delay.value == Trunc(duration / steps as real))
      ensures pending == delay.Some?
    {
      if cancelled || steps == 0 {
        delay := None;
        pending := false;
        return;
      }
      var t := step as real / steps as real;
      var cur := Blend(startRgb, endRgb, t);
      widget.Configure(map[option := Str(RgbToHex(cur))]);
      step := step + 1;
      if step <= steps {
        delay := Some(Trunc(duration / steps as real));
      } else {
        delay := None;
      }
      pending := delay.Some?;
    }

    /** The `cancel` closure returned to the caller. */
    method Cancel()
      modifies this`cancelled
      ensures cancelled
    {
      cancelled := true;
    }
  }

  /** The event loop delivering every scheduled tick of a fresh, uncancelled
      colour tween: exactly `steps + 1` ticks run (one if `steps` is negative),
      nothing is scheduled afterwards, and the last colour written is the end
      colour (the start colour for a negative `steps`). */
  method DeliverTicks(t: ColorTween) returns (ticks: nat)
    requires t.step == 0 && !t.cancelled && t.pending && t.steps != 0
    modifies t`step, t`pending, t.widget`options
    ensures ticks == (if t.steps > 0 then t.steps + 1 else 1)
    ensures t.step == ticks && !t.pending
    ensures t.option in t.widget.options
    ensures t.widget.options[t.option] == Str(RgbToHex(ToReal(if t.steps > 0 then t.endRgb else t.startRgb)))
  {
    ticks := 0;
    while t.pending
      invariant !t.cancelled
      invariant t.step == ticks
      invariant ticks <= (if t.steps > 0 then t.steps + 1 else 1)
      invariant t.pending <==> ticks == 0 || ticks <= t.steps
      invariant ticks > 0 ==> t.option in t.widget.options
      invariant ticks > 0 ==> t.widget.options[t.option] == Str(t.ColourAt(ticks - 1))
      decreases (if t.steps > 0 then t.steps + 1 else 1) - ticks
    {
      var _ := t.Tick();
      ticks := ticks + 1;
    }
    assert ticks - 1 == (if t.steps > 0 then t.steps else 0);
    LastColour(t);
  }

  /** The last tick of a chain writes the end colour, or the start colour when
      `steps` is negative and tick 0 is the only one. */
  lemma LastColour(t: ColorTween)
    requires t.steps != 0
    ensures t.ColourAt(if t.steps > 0 then t.steps else 0)
      == RgbToHex(ToReal(if t.steps > 0 then t.endRgb else t.startRgb))
  {
    BlendEndpoints(t.startRgb, t.endRgb);
    if t.steps > 0 {
      DivSelf(t.steps);
    } else {
      DivZero(t.steps);
    }
  }

  type NonZero = n: int | n != 0 witness 1

  /** The per-step offset `(to - current) / float(steps)`. */
  function Delta(current: int, to: int, steps: NonZero): real
  {
    (to - current) as real / steps as real
  }

  /** The coordinate tick `k` places the widget at: `int(current + d * k)`. */
  function Axis(current: int, d: real, k: int): int
  {
    Trunc(current as real + d * k as real)
  }

  /** The `tick` closure of `animate_move`, with its captured state. The step
      count is never zero here: `animate_move` divides by it before the
      first tick is scheduled. */
  class MoveTween {
    const widget: Widget
    const currentX: int
    const currentY: int
    const toX: int
    const toY: int
    const steps: NonZero
    /** `(to_x - current_x) / float(steps)` and the same for `y`. */
    const dx: real := Delta(currentX, toX, steps)
    const dy: real := Delta(currentY, toY, steps)
    const duration: real
    var step: int
    var cancelled: bool
    var pending: bool

    constructor (widget: Widget, currentX: int, currentY: int, toX: int, toY: int, steps: NonZero, duration: real)
      ensures this.widget == widget && this.currentX == currentX && this.currentY == currentY
      ensures this.toX == toX && this.toY == toY && this.steps == steps && this.duration == duration
      ensures step == 0 && !cancelled && pending
    {
      this.widget := widget;
      this.currentX, this.currentY, this.toX, this.toY := currentX, currentY, toX, toY;
      this.steps, this.duration := steps, duration;
      step, cancelled, pending := 0, false, true;
    }

    /** The position tick `k` places the widget at: `int(current + d * k)`. */
    function PositionAt(k: int): (int, int)
    {
      (Axis(currentX, dx, k), Axis(currentY, dy, k))
    }

    /** One run of `tick`. `placed` is whether `place_configure` succeeded;
        its exception is swallowed, so the counter advances either way. */
    method Tick(placed: bool) returns (delay: Option<int>)
      modifies this`step, this`pending, widget`x, widget`y, widget`manager, widget`geometry
      ensures cancelled ==> step == old(step) && delay == None
      ensures cancelled || !placed ==> unchanged(widget)
      ensures !cancelled ==>
        && step == old(step) + 1
        && (placed ==> (widget.x, widget.y) == PositionAt(old(step)) && widget.manager == Placed)
        && (placed ==> widget.geometry == map["x" := Int(widget.x), "y" := Int(widget.y)])
        && (delay.Some? <==> step <= steps)
        && (delay.Some? ==> delay.value == Trunc(duration / steps as real))
      ensures pending == delay.Some?
    {
      if cancelled {
        delay := None;
        pending := false;
        return;
      }
      var nx := Axis(currentX, dx, step);
      var ny := Axis(currentY, dy, step);
      if placed {
        widget.MoveTo(nx, ny);
        assert (widget.x, widget.y) == PositionAt(step);
      }
      step := step + 1;
      if step <= steps {
        delay := Some(Trunc(duration / steps as real));
      } else {
        delay := None;
      }
      pending := delay.Some?;
    }

    method Cancel()
      modifies this`cancelled
      ensures cancelled
    {
      cancelled := true;
    }
  }

  /** Tick 0 places the widget where it already was. */
  lemma MoveStartsInPlace(t: MoveTween)
    ensures t.PositionAt(0) == (t.currentX, t.currentY)
  {
    AxisAtZero(t.currentX, t.dx);
    AxisAtZero(t.currentY, t.dy);
  }

  /** Tick 0 of either axis is the coordinate it starts from. */
  lemma AxisAtZero(current: int, d: real)
    ensures Axis(current, d, 0) == current
  {
    assert d * (0 as real) == 0.0;
    TruncBetween(current as real, current, current);
  }

  /** Each axis of `int(current + (to - current) / steps * k)` lies between
      the current and the target coordinate for `k` in `0..steps`. */
  lemma {:induction false} MoveAxisBetween(current: int, to: int, steps: NonZero, k: int)
    requires 0 <= k <= steps
    ensures Between(Axis(current, Delta(current, to, steps), k), current, to)
  {
    var x, n, m := (to - current) as real, k as real, steps as real;
    var t := n / m;
    assert 0.0 <= t <= 1.0;
    ScaleOrder(x, n, m);
    assert current as real + Delta(current, to, steps) * n == Mix(current, to, t);
    assert Axis(current, Delta(current, to, steps), k) == Trunc(Mix(current, to, t));
    TruncMixBetween(current, to, t);
  }

  /** `x / m * n` and `x * (n / m)` are the same real. */
  lemma ScaleOrder(x: real, n: real, m: real)
    requires m != 0.0
    ensures x / m * n == x * (n / m)
  {
    var q, r := x / m, n / m;
    assert q * m == x;
    assert r * m == n;
    calc {
      q * n;
      q * (r * m);
      (q * m) * r;
      x * r;
    }
  }

  /** Every position a move tick `k` in `0..steps` writes lies in the box
      spanned by the start and target positions. */
  lemma MoveStaysInBox(t: MoveTween, k: int)
    requires 0 <= k <= t.steps
    ensures Between(t.PositionAt(k).0, t.currentX, t.toX)
    ensures Between(t.PositionAt(k).1, t.currentY, t.toY)
  {
    MoveAxisBetween(t.currentX, t.toX, t.steps, k);
    MoveAxisBetween(t.currentY, t.toY, t.steps, k);
  }

  /** What `animate_move` hands back: the cancel handle of a running tween,
      the no-op `lambda: None` when the position query failed, or nothing at
      all because `(to - current) / float(steps)` raised `ZeroDivisionError`. */
  datatype MoveHandle = Cancellable(tween: MoveTween) | NoOpCancel | Raised

  /** The body `animate_bg` / `animate_fg` share once the start colour is
      chosen: both colours go through `_color_to_rgb`, `steps` defaults to
      `max(2, int(duration / 20))`, and the first tick is scheduled. The
      toolkit's answers to `winfo_rgb` for the two colours are `startNative`
      and `endNative`. */
  method AnimateColour(widget: Widget, option: string, startColour: string, toColour: string,
                       duration: real, steps: Option<int>,
                       startNative: Option<Rgb>, endNative: Option<Rgb>) returns (tween: ColorTween)
    ensures fresh(tween) && tween.widget == widget && tween.option == option
    ensures tween.startRgb == ColorToRgb(startColour, startNative)
    ensures tween.endRgb == ColorToRgb(toColour, endNative)
    ensures tween.steps == StepsFor(duration, steps) && tween.duration == duration
    ensures tween.step == 0 && !tween.cancelled && tween.pending
  {
    var startRgb := ColorToRgb(startColour, startNative);
    var endRgb := ColorToRgb(toColour, endNative);
    var n := if steps.None? then DefaultSteps(duration) else steps.value;
    tween := new ColorTween(widget, option, startRgb, endRgb, n, duration);
  }

  /** The body of `animate_move`. `position` is the answer of
      `winfo_x()` / `winfo_y()`, `None` if the query raised. */
  method AnimateMove(widget: Widget, toX: int, toY: int, duration: real, steps: Option<int>,
                     position: Option<(int, int)>) returns (handle: MoveHandle)
    ensures position.None? ==> handle == NoOpCancel
    ensures position.Some? && StepsFor(duration, steps) == 0 ==> handle == Raised
    ensures position.Some? && StepsFor(duration, steps) != 0 ==>
      && handle.Cancellable? && fresh(handle.tween) && handle.tween.widget == widget
      && handle.tween.currentX == position.value.0 && handle.tween.currentY == position.value.1
      && handle.tween.toX == toX && handle.tween.toY == toY
      && handle.tween.steps == StepsFor(duration, steps) && handle.tween.duration == duration
      && handle.tween.step == 0 && !handle.tween.cancelled && handle.tween.pending
  {
    if position.None? {
      return NoOpCancel;
    }
    var (currentX, currentY) := position.value;
    var n := if steps.None? then DefaultSteps(duration) else steps.value;
    if n == 0 {
      return Raised;
    }
    var tween := new MoveTween(widget, currentX, currentY, toX, toY, n, duration);
    handle := Cancellable(tween);
  }
}
