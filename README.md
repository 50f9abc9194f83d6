# tkinterpp in Dafny

tkinterpp wraps three toolkit widgets (`Button`, `Label`, `Switch`) and adds
time-based animations (`Animation`). Underneath the pass-through calls to the
toolkit, each wrapper holds a small amount of logic of its own. This project
models that logic and proves properties about it:

- the geometry-keyword filter `_filter_geom_kwargs` (module `Geometry`): the
  `padding` alias, dropping `round`, and the allow-list;
- the colour codec `_hex_to_rgb` / `_color_to_rgb` / `_rgb_to_hex` (modules
  `Numerals` and `Colors`), with its white fallback;
- the font-string conversion of `apply_style` (module `Fonts`) and the
  style keys each class applies (module `Styles`);
- the step-counted `tick` closures of `animate_bg`, `animate_fg` and
  `animate_move` (module `Tweens`), as objects with a `step` counter, a
  `cancelled` flag and a `pending` flag that says whether `after` re-armed
  the tick;
- the three widget classes, each checked against its own file (modules
  `Buttons`, `Labels`, `Switches`), including the switch's on/off state;
- the `Animation` session (module `Animations`): clamped progress, the four
  easing curves, the frame that re-arms itself every 16 ms, `stop`, the
  completion callback, and the interpolation closures of `animate_color`,
  `animate_move` and `animate_opacity`.

The toolkit widget is a record of what the wrappers last wrote to it
(`Toolkit.Widget`). Its options are a `map`, and `pack`/`grid`/`place`
record the manager and the keywords. Answers of toolkit queries (`winfo_rgb`,
`winfo_x`/`winfo_y`, whether `place_configure` raised) and clock readings are
parameters of the operations that use them. Python's `int()` on a float
truncates toward zero (`Numerals.Trunc`). `// 256` is applied only to values
where Dafny's `/` agrees with Python's floor division. `'%02x'` keeps a
negative sign inside the field width (`Colors.Hex02`). Exceptions become
explicit results: `None` from a parser, `raised` from a method, or the
`Raised` move handle.

The animation code has behaviours a reader may not expect, and the model
keeps them:

- `start` runs the first frame at once. So the first update always happens,
  even when `stop` follows immediately.
- A negative duration never completes. `elapsed / duration` is never
  positive, so the frame re-arms forever
  (`Animations.NegativeDurationNeverCompletes`).
- A zero duration raises `ZeroDivisionError` in the first frame, before any
  update.
- The colour channels of `animate_color` are truncated.
- `on_complete` is called at most once per `start`. A session restarted
  after it completed completes again. Two `start`s before completion run two
  frame chains, and the session completes once.

The allow-list of the filter lacks `x`, `y`, `row` and `column`. So
`place(x=..., y=...)` and `grid(row=..., column=...)` drop those keywords
(`Geometry.PositionKeywordsDropped`). The model keeps that behaviour.

## Model

| member | source | states |
|---|---|---|
| Geometry.Filtered | widgets/button.py:8-21 | only allow-listed keys survive; `padding` and `round` never do; every allow-listed key the caller gave keeps its value; `padx`/`pady` are present whenever `padding` was given |
| Geometry.FilterGeomKwargs | widgets/button.py:8-21 | the in-place `pop`/`setdefault`/`pop`/comprehension sequence computes exactly `Filtered(kwargs)` |
| Geometry.PadPair | widgets/button.py:13-18 | a list or tuple of two or more elements splits into its first two; anything else is used for both |
| Geometry.SetDefault | widgets/button.py:14-18 | `setdefault` adds the key only when it is absent and never changes an existing entry |
| Geometry.PaddingExpansion | widgets/button.py:11-18 | `padx`/`pady` come from `padding` exactly when the caller did not give them |
| Geometry.FilterIdempotent | widgets/button.py:8-21 | filtering an already filtered dictionary changes nothing |
| Geometry.KeepAllowed | widgets/button.py:19-21 | once `padding` is expanded, cutting the working dictionary down to the allow-list yields exactly the filter's result, whatever other keys (such as `round`) it still holds |
| Geometry.PaddingPairExample | widgets/button.py:11-21 | `padding=(4, 8)` with an unknown key gives exactly `{padx: 4, pady: 8}` |
| Geometry.PositionKeywordsDropped | widgets/button.py:9-21 | `x`, `y`, `row` and `column` never reach `pack`/`grid`/`place` |
| Numerals.Parse | widgets/button.py:46 | `int(s, 16)` succeeds exactly on non-empty digit strings |
| Numerals.Numeral | widgets/button.py:59 | the numeral is non-empty, lower-case and made of digits, and has one digit exactly when the number is below the base |
| Numerals.DigitChar | widgets/button.py:59 | the printed digit reads back as itself and is lower case |
| Numerals.ParseNumeral | widgets/button.py:42-59 | reading back a printed numeral gives the number |
| Numerals.Trunc | widgets/button.py:59 | `int()` of a float lies within one of it, toward zero |
| Numerals.TruncBetween | widgets/button.py:59 | truncation keeps a value between two integers between them |
| Colors.StripHashes | widgets/button.py:43 | `lstrip('#')` leaves a suffix that does not start with `#`, after a prefix of `#` only |
| Colors.DoubleEach | widgets/button.py:44-45 | every digit appears twice, in order, and the length doubles |
| Colors.Slice | widgets/button.py:46 | a Python slice clips both ends to the length |
| Colors.Channels | widgets/button.py:46 | three parsed slices give an 8-bit triple |
| Colors.HexToRgb | widgets/button.py:42-46 | a successful parse is always an 8-bit triple |
| Colors.ColorToRgb | widgets/button.py:48-56 | a colour starting with `#` gives what the hex parser reads; any other colour gives each channel of the toolkit's answer divided by 256, the high byte of a 16-bit answer; every failure gives white; the label and the switch inline the same parse in `widgets/label.py` (lines 65-75) and `widgets/switch.py` (lines 62-72) |
| Colors.Hex02 | widgets/button.py:59 | `'%02x'`; its contract for bytes (two lower-case digits that read back as the byte) is `Colors.Hex02OfByte` |
| Colors.RgbToHex | widgets/button.py:58-59 | `_rgb_to_hex`; that it gives a canonical `#rrggbb` that reads back as the triple is `Colors.HexRoundTrip` |
| Colors.HexOfPieces | widgets/button.py:42-46 | `#` and six digits read as the three pairs, and any unreadable pair gives no colour |
| Colors.CanonicalOfPieces | widgets/button.py:59 | three `%02x` pieces of lower-case digits after `#` form a canonical colour |
| Colors.ParseShortIsByte | widgets/button.py:46 | a slice of at most two hex digits reads as a byte |
| Colors.Hex02OfByte | widgets/button.py:59 | a byte prints as two lower-case hex digits that read back as the byte |
| Colors.HexRoundTrip | widgets/button.py:42-59 | `_rgb_to_hex` of an 8-bit triple is `#` plus six lower-case digits, and `_hex_to_rgb` gives the triple back |
| Colors.ColorOfFormattedHex | widgets/button.py:48-59 | `_color_to_rgb` of a formatted triple is the triple, whatever the toolkit would answer |
| Colors.ThreeDigitExpansion | widgets/button.py:44-45 | `#rgb` parses like `#rrggbb` |
| Colors.LeadingHashesIgnored | widgets/button.py:43 | any number of leading `#` is ignored |
| Colors.FirstSixDigitsRead | widgets/label.py:67-71 | only the first six digits are read |
| Colors.TooFewDigitsGiveWhite | widgets/button.py:46-56 | zero, one, two or four digits make a slice empty, so the result is white |
| Colors.FiveDigitsReadLastAlone | widgets/button.py:46 | five digits are no error: the first two channels are read from pairs and the last from a single digit |
| Colors.SixDigits | widgets/button.py:42-46 | `#` followed by six hex digits reads as the three channels, each the value of its digit pair |
| Colors.WhiteParses | widgets/button.py:67 | the default background `#ffffff` reads as white |
| Colors.BlackParses | widgets/label.py:108 | the default foreground `#000000` reads as black |
| Fonts.SplitFrom | widgets/button.py:141 | every token of the split is a non-empty run without whitespace |
| Fonts.Split | widgets/button.py:141 | `str.split()` yields only non-empty tokens without whitespace |
| Fonts.SplitJoin | widgets/button.py:141 | splitting words joined by single spaces gives the words back |
| Fonts.SplitFromKeepsText | widgets/button.py:141 | the tokens still to come hold the current token and then every remaining non-space character, in order |
| Fonts.SplitKeepsText | widgets/button.py:141 | whatever whitespace leads, trails or repeats, the tokens put back together are the string's non-space characters |
| Fonts.ParseInt | widgets/button.py:142 | `int()` of a token reads exactly an optional sign followed by ASCII decimal digits; the value is not positive after `-` and not negative otherwise |
| Fonts.IntTextRoundTrip | widgets/button.py:142 | `int(str(n)) == n` for every integer |
| Fonts.ParseFont | widgets/button.py:141-142 | fewer than two tokens, or a second token that `int()` does not read, give no font; a font read has the size `int()` reads from the second token, and words for family and styles |
| Fonts.FontRoundTrip | widgets/label.py:170-172 | a font written as `family size styles...` converts to that family, size and styles, in order |
| Fonts.StyleFont | widgets/button.py:141-142 | a style's font converts exactly when it is a string that reads as a font; the toolkit then receives a tuple of the family string, the integer size and the style words |
| Styles.Restrict | widgets/button.py:136-152 | the entries of the style under the given keys, unchanged, and no others: with `bg`/`fg` the colour writes (lines 136-139), with `borderwidth`/`relief` the border writes (lines 149-152) |
| Styles.FontWrites | widgets/button.py:140-142 | the font is written exactly when present and convertible, as the converted tuple |
| Styles.PaddingWrites | widgets/button.py:143-148 | a `padding` entry writes both `padx` and `pady`, and nothing otherwise |
| Styles.RestrictPair | widgets/button.py:136-139 | writing the entry for one key and then for another is writing the restriction to both keys, each entry only when present |
| Styles.WrittenFontConverts | widgets/label.py:170-172 | a well-formed font string never raises and gives its font tuple |
| Styles.ApplyColoursAndFont | widgets/button.py:136-142 | the colours are written first; a font that does not convert raises and stops there |
| Styles.ApplyBox | widgets/button.py:143-152 | padding, border width and relief are written as the style gives them |
| Buttons.Button.constructor | widgets/button.py:5-6 | a new button shows its text and is not yet managed |
| Buttons.Button.Pack | widgets/button.py:23-24 | `pack` receives exactly the filtered keywords |
| Buttons.Button.Grid | widgets/button.py:26-27 | `grid` receives exactly the filtered keywords |
| Buttons.Button.Place | widgets/button.py:29-30 | `place` receives exactly the filtered keywords |
| Buttons.Button.StartBg | widgets/button.py:67 | the start colour is `bg`, else `background`, else `#ffffff`, each option counting as set when the option store holds a non-empty string for it; the result is never empty |
| Buttons.Button.AnimateBg | widgets/button.py:61-92 | the tween fades `bg` between the converted start and target colours, with the default step count, from step 0, uncancelled, with the first tick scheduled |
| Buttons.Button.AnimateMove | widgets/button.py:94-133 | a failed position query gives a no-op cancel; zero steps raise; otherwise a tween starts from the queried position |
| Buttons.Button.ApplyStyle | widgets/button.py:135-152 | the widget gains exactly the colour, font, padding and border entries of the style, and nothing after the font when the font raises |
| Buttons.UnsetBackgroundStartsWhite | widgets/button.py:67-68 | when the option store holds no colour string for `bg` or `background`, the fade starts from white |
| Tweens.DefaultSteps | widgets/button.py:70-71 | the default step count is at least 2; it is 2 below 60 ms, and from 60 ms on it is the one `n` with `20 n <= duration < 20 (n + 1)`, which is `int(duration / 20)` |
| Tweens.DefaultStepsExamples | widgets/button.py:70-71 | the default duration of 300 ms gives 15 steps, and 200 ms gives 10 |
| Tweens.DefaultStepsUnique | widgets/button.py:71 | any count of at least 3 that fits `20 k <= duration < 20 (k + 1)` is the default count |
| Tweens.StepsFor | widgets/button.py:70-71 | the caller's step count, or the default |
| Tweens.MixBetween | widgets/button.py:81 | for `t` in [0, 1] a blended channel stays between its ends |
| Tweens.BlendEndpoints | widgets/button.py:80-81 | the blend is the start colour at 0 and the end colour at 1 |
| Tweens.TruncMixBetween | widgets/button.py:81-82 | a truncated blended channel stays between its ends |
| Tweens.TickColourBetween | widgets/button.py:76-85 | every colour tick `k` in `0..steps` writes is a canonical `#rrggbb` whose channels lie between the ends |
| Tweens.ColorTween.constructor | widgets/button.py:73-87 | counter 0, not cancelled, first tick scheduled |
| Tweens.ColorTween.Tick | widgets/button.py:76-85 | a cancelled tick, or one with zero steps, writes nothing and stops the chain; otherwise it writes the blend for the current step, advances the counter, and re-arms exactly while the counter has not passed `steps` |
| Tweens.ColorTween.Cancel | widgets/button.py:89-90 | the flag is set, so every later tick is a no-op |
| Tweens.DeliverTicks | widgets/button.py:76-87 | an uncancelled tween runs exactly `steps + 1` ticks, then nothing is scheduled, and the last colour written is the target |
| Tweens.LastColour | widgets/button.py:80-82 | tick `steps` writes exactly the end colour |
| Tweens.MoveTween.constructor | widgets/button.py:106-128 | counter 0, not cancelled, first tick scheduled |
| Tweens.MoveTween.Tick | widgets/button.py:114-126 | a cancelled tick does nothing; otherwise tick `k` places the widget at `int(current + d * k)` when `place_configure` succeeds (with `x` and `y` as the keywords of that call), and the counter advances and re-arms either way |
| Tweens.MoveTween.Cancel | widgets/button.py:130-131 | the flag is set, so every later tick is a no-op |
| Tweens.MoveStartsInPlace | widgets/button.py:118-119 | tick 0 places the widget at its current position |
| Tweens.MoveAxisBetween | widgets/button.py:109-119 | each coordinate of tick `k` in `0..steps` lies between the current and target coordinates |
| Tweens.MoveStaysInBox | widgets/button.py:118-121 | every position written lies in the box spanned by start and target |
| Tweens.AnimateColour | widgets/button.py:66-92 | both colours are converted, the step count defaults, and a fresh tween with its first tick scheduled is returned |
| Tweens.AnimateMove | widgets/button.py:99-133 | the no-op cancel on a failed query, the raise on zero steps, and the fresh tween otherwise |
| Labels.ThemeWrites | widgets/label.py:11-16 | `bg`, `fg` and `font` come from the theme or default to `#ffffff`, `#000000` and `("Arial", 11)` |
| Labels.Label.constructor | widgets/label.py:5-9 | a missing or empty theme writes only the text; a non-empty one also applies the theme |
| Labels.Label.ApplyTheme | widgets/label.py:11-16 | with no theme it raises and writes nothing; otherwise the widget gains the theme's three entries |
| Labels.Label.Pack | widgets/label.py:18-32 | the label's filter has the same contract: `pack` receives exactly the filtered keywords |
| Labels.Label.Grid | widgets/label.py:34-35 | `grid` receives exactly the filtered keywords |
| Labels.Label.Place | widgets/label.py:37-38 | `place` receives exactly the filtered keywords |
| Labels.Label.StartBg | widgets/label.py:82 | the start colour is `bg` when the option store holds a non-empty string for it, else `#ffffff`; the code reads no second option |
| Labels.Label.StartFg | widgets/label.py:108 | the start colour is `fg`, else `foreground`, else `#000000`, each option counting as set when the option store holds a non-empty string for it |
| Labels.Label.AnimateBg | widgets/label.py:80-104 | a `bg` tween from the label's start colour to the target |
| Labels.Label.AnimateFg | widgets/label.py:106-130 | an `fg` tween from the current foreground to the target, with the default step count and its first tick scheduled |
| Labels.Label.AnimateMove | widgets/label.py:132-163 | the no-op cancel, the raise on zero steps, and the fresh tween from the queried position |
| Labels.Label.ApplyStyle | widgets/label.py:165-172 | only `bg`, `fg` and `font` are applied; a bad font raises after the colours |
| Labels.UnsetForegroundStartsBlack | widgets/label.py:108-110 | when the option store holds no colour string for `fg` or `foreground`, the fade starts from black |
| Labels.UnsetBackgroundStartsWhite | widgets/label.py:82-83 | when the option store holds no colour string for `bg`, the fade starts from white |
| Labels.ThemeDefaultsParse | widgets/label.py:13-14 | a theme without colours gives black text on white |
| Switches.Switch.constructor | widgets/switch.py:5-14 | a new switch is off and shows `off_text` |
| Switches.Switch.IsOn | widgets/switch.py:51-52 | `is_on`: the variable's value; how `set_on` and a click change it is stated by `SetOn` and `Click` |
| Switches.Switch.SetOn | widgets/switch.py:54-59 | `is_on()` becomes the value, and the text becomes `on_text` or `off_text` to match |
| Switches.Switch.Toggle | widgets/switch.py:16-24 | the text is set from the variable, then the command is called once if one was given |
| Switches.Switch.Click | widgets/switch.py:16-24 | a click flips the variable; the text follows and the command is called once |
| Switches.TwoClicks | widgets/switch.py:16-24 | two clicks restore the state and the text |
| Switches.Switch.Pack | widgets/switch.py:26-40 | the switch's filter has the same contract: `pack` receives exactly the filtered keywords |
| Switches.Switch.Grid | widgets/switch.py:42-43 | `grid` receives exactly the filtered keywords |
| Switches.Switch.Place | widgets/switch.py:45-46 | `place` receives exactly the filtered keywords |
| Switches.Switch.StartBg | widgets/switch.py:79 | the start colour is `bg`, else `background`, else `#ffffff`, each option counting as set when the option store holds a non-empty string for it |
| Switches.Switch.AnimateBg | widgets/switch.py:77-101 | a `bg` tween from the start colour to the target |
| Switches.Switch.AnimateMove | widgets/switch.py:103-134 | the no-op cancel, the raise on zero steps, and the fresh tween from the queried position |
| Switches.Switch.ApplyStyle | widgets/switch.py:136-153 | the same keys as the button, in the same order |
| Switches.PaddingStyle | widgets/switch.py:144-149 | a `padding` list or tuple with two or more elements sets `padx`/`pady` to its first two elements; any other value sets both to itself |
| Animations.EaseEndpoints | animation.py:19-26 | every easing name, known or not, maps 0 to 0 and 1 to 1 |
| Animations.EaseHalfway | animation.py:20-26 | `ease_in(0.5) = 0.25`, `ease_out(0.5) = 0.75`, `ease_in_out(0.5) = 0.5`, and linear is the identity |
| Animations.EaseInUnit | animation.py:19-26 | each curve maps [0, 1] into [0, 1] |
| Animations.SmoothstepMonotone | animation.py:21 | the `ease_in_out` curve is non-decreasing on [0, 1] |
| Animations.EaseMonotone | animation.py:19-26 | each curve is non-decreasing on [0, 1] |
| Animations.Ease | animation.py:19-26 | `_ease`; the curves' end points, range and monotonicity are `EaseEndpoints`, `EaseInUnit` and `EaseMonotone` |
| Animations.Progress | animation.py:33 | progress never exceeds 1, is 1 exactly when `elapsed / duration >= 1`, and is that quotient otherwise |
| Animations.ProgressMonotone | animation.py:32-33 | with a positive duration, progress lies in [0, 1] and grows with elapsed time |
| Animations.ProgressReachesOne | animation.py:33-43 | once the duration has elapsed, progress is exactly 1 |
| Animations.NegativeDurationNeverCompletes | animation.py:33-39 | with a negative duration, progress stays at or below 0 |
| Animations.DurationSeconds | animation.py:61 | the ready-made sessions convert milliseconds to seconds |
| Animations.ColorChannel | animation.py:54-56 | one channel of the colour closure; its end points and range are `ColorChannelEndpoints` and `ChannelBetween` |
| Animations.ColorFrameHex | animation.py:54-58 | the colour the closure writes; that it is canonical and reads back as its channels is `ColorFrameCanonical` |
| Animations.MovePoint | animation.py:68-69 | one coordinate of the move closure; its end points and range are `MovePointEnds` |
| Animations.OpacityAt | animation.py:78 | the opacity closure; its end points and range are `OpacityEnds` |
| Animations.ColorChannelEndpoints | animation.py:54-56 | a channel is the start channel `// 256` at 0 and the end channel `// 256` at 1 |
| Animations.ChannelBetween | animation.py:54-56 | a 16-bit channel pair gives a byte between the ends' bytes |
| Animations.ColorFrameCanonical | animation.py:54-58 | every frame between two 16-bit colours is a canonical `#rrggbb` that parses back to its channels, and each of the three channels lies between the ends' 8-bit channels |
| Animations.BlackToWhiteHalfway | animation.py:54-58 | half-way from black to white is `#7f7f7f` |
| Animations.MovePointEnds | animation.py:68-69 | the point is `from` at 0 and `to` at 1, and between them in between |
| Animations.OpacityEnds | animation.py:78 | the opacity is `from` at 0 and `to` at 1, and lies between them for progress in [0, 1] |
| Animations.Effect.Apply | animation.py:50-79 | each update function writes only its own part of the widget: the target option becomes the frame colour; or the widget is placed at the moving point, with `x` and `y` as the keywords of that `place` call; or the alpha becomes the interpolated opacity. Everything else stays as it was |
| Animations.EffectWrites | animation.py:50-79 | for progress in [0, 1] the colour written is canonical with every channel between the ends', the position lies in the box spanned by the two points, and the opacity lies between the two given |
| Animations.Animation.constructor | animation.py:5-12 | a new session is not running, has no start time, and has done nothing |
| Animations.Animation.Update | animation.py:36 | the eased value is recorded and the widget is updated by the session's effect |
| Animations.Animation.Step | animation.py:28-43 | a stopped session does nothing; otherwise the update runs once with the eased progress, the frame re-arms exactly when progress is below 1, and on finishing `running` clears and `on_complete` is called once |
| Animations.Animation.Start | animation.py:14-17 | records the start time, sets running, counts one more start, and runs the first frame at once; on a zero duration that frame raises, with nothing else changed (widget, frames waiting, completions) |
| Animations.Animation.Fire | animation.py:38-39 | a scheduled frame runs `_step`: a no-op once stopped; on a zero duration it raises and changes nothing else; otherwise it records the eased progress, applies the effect to the widget, and re-arms or finishes as `Step` does |
| Animations.Animation.Stop | animation.py:45-46 | the session stops, so later frames do nothing and never complete |
| Animations.Animation.CompletionsBounded | animation.py:14-17 | `on_complete` is called at most once per `start` of the session |
| Animations.AnimateColor | animation.py:48-63 | a linear session over `duration / 1000` s that fades `target` between the two colours, started at once: the first frame applies the effect at the first progress, leaves the session running with one frame waiting exactly while that progress is below 1, and calls nothing on completion; on a zero duration it raises before touching the widget |
| Animations.AnimateMove | animation.py:65-73 | a linear session over `duration / 1000` s that slides the widget from `from_pos` to `to_pos`, started at once: the first frame applies the effect at the first progress, leaves the session running with one frame waiting exactly while that progress is below 1, and calls nothing on completion; on a zero duration it raises before touching the widget |
| Animations.AnimateOpacity | animation.py:75-82 | a linear session over `duration / 1000` s that sets the window's alpha between the two opacities, started at once: the first frame applies the effect at the first progress, leaves the session running with one frame waiting exactly while that progress is below 1, and calls nothing on completion; on a zero duration it raises before touching the widget |

## Left out

- The pass-throughs `config`, `set_text`, `get_text`, `set_font`, `set_fg`, `set_bg`, `destroy` and `update` have no logic of their own. The toolkit is reduced to the record in `Toolkit.Widget`.
- The button's `command`, wired into the toolkit, is not modelled. The switch's command is a call counter.
- The toolkit queries `winfo_rgb`, `winfo_x`/`winfo_y` and `place_configure` are parameters. Their real answers belong to the toolkit.
- `animate_color` calls `winfo_rgb` on every frame. The model takes one fixed 16-bit answer per colour and does not model the query raising inside the update function.
- The delays passed to `after` are computed but not used for timing. Event-loop scheduling is a `pending` flag for tweens and a frame counter for `Animation`.
- Several sessions interleaving on the event loop are not modelled: each object is modelled on its own.
- Floating point is not modelled. Progress, blends, easing and opacity use exact `real` arithmetic. Exact positions at the last move tick are not claimed, because they depend on float rounding.
- `int(s, 16)`'s tolerance of surrounding whitespace, a sign, underscores between digits and non-ASCII decimal digits (a slice of two Arabic-Indic zeros reads as 0) is not modelled. Such slices fall back to white as any other non-digit does.
- Fonts.ParseInt: `int()` of the font size also reads underscores between digits (`"1_2"`) and non-ASCII decimal digits. The model reads only ASCII digits after an optional sign, so such a size counts as a `ValueError`.
- Toolkit.Widget.Cget: an option is a plain key of the option store, and an unset one reads as the empty string. The toolkit's aliases (`bg`/`background`, `fg`/`foreground` name one option) and its non-empty defaults are not modelled. So on a real widget the `#ffffff`/`#000000` fallbacks are rarely reached, and the label's ignoring `background` is no observable difference.
- Toolkit.Widget.MoveTo: `geometry` holds the keywords of the last `pack`, `grid` or `place` call. The toolkit's merging of a repeated call to the same manager with the options it already holds is not modelled.
- Switches.Switch.SetOn: takes a `bool`. `set_on` accepts any value; the `BooleanVar` converts it and `if value:` tests its truth, which the model leaves to the caller.
- Colours are always strings: the `isinstance(color, str)` test is not modelled.
- Step counts are integers, and positions are integers.
- A user's own `update_func` is recorded as the sequence of eased values it receives. Exceptions raised by it or by `on_complete` are not modelled.
- Tweens.DeliverTicks: stated only for a fresh, uncancelled tween with non-zero steps. A cancelled tween's ticks are covered by `Tweens.ColorTween.Tick`.
- `AnimationManager`, `ttkpp.py` (theme file loading), `core.py` (window setup and the main loop), `widget.py` and the `widgets` compatibility blocks are forwarding and I/O, and are not part of this model.
