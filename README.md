# AnalogClock, modelled in Dafny

A model of the custom Android view `AnalogClock`. The view draws a clock
face from three images: the dial, the hour hand and the minute hand. It
keeps the current time as a fractional minute and a fractional hour. It
listens for the system's time broadcasts while it is attached to a window.
It asks for the dial's size when measured, shrinking both sides by one
factor when the parent offers less. It draws the dial and then each hand
rotated about the centre of the view.

The model has six modules:

- `Geometry` (geometry.dfy): positive intrinsic sizes and rectangles. It
  also writes out Java's `int / 2` (truncation toward zero), the `(int)`
  cast of a float, and `Math.min`.
- `ClockTime` (clock_time.dfy): the fractional minute and hour stored by
  `onTimeChanged`, and the rotation each hand gets. All floats are exact
  reals. Rotations are compared up to whole turns.
- `Measure` (measure.dfy): `onMeasure`'s scale rule as pure functions, with
  its properties.
- `Canvas` (canvas.dfy): the part of a canvas the clock uses. That is a
  save/restore stack of transformation matrices, scale and rotate about a
  point, and drawables that hold bounds and draw themselves under the
  current matrix. A draw is the list of calls it makes. `Run` replays such
  a list, and a restore with nothing saved is an error.
- `Render` (render.dfy): the list of calls `onDraw` makes, as a function of
  the dirty flag, the view size, the image sizes and the time. It also
  holds the lemmas about that list.
- `AnalogClockView` (analog_clock.dfy): the view as a class.
  - Its fields are the drawables, the zone of the calendar, `mDialWidth`
    and `mDialHeight`, `mChanged`, `mMinutes`, `mHour` and `mAttached`.
  - Two extra fields count receiver registrations and requested redraws.
  - Each callback is a method that updates those fields.
  - `OnMeasure` and `OnDraw` follow the Java step by step. They are proved
    equal to the functions of `Measure` and `Render`. `OnDraw`'s parts for
    the dial and for each hand are methods of their own.

Two details are modelled exactly as the code has them, though they look
unintended:

- The dial's top edge is `h - h/2` (line 207), not `y - h/2`. Only the
  dial's horizontal extent is centred, and the vertical centre is right
  only when the dial's height equals `y`. `Render.DialBoundsAsWritten`
  states the shift, and `Render.DialOffCentreExample` gives an instance.
  The model does not switch to a corrected formula, so nothing in it
  depends on one.
- The receiver switches the calendar's time zone on a time-changed
  broadcast (line 139), not on a timezone-changed broadcast. A
  timezone-changed broadcast only samples the time and requests a redraw.

Both details differ from what the view is evidently meant to do. The model
follows the code in both.

## Model

| member | source | states |
|---|---|---|
| ClockTime.MinutesOf | app/src/main/java/com/study/myapplication/AnalogClock.java:128 | defines mMinutes as minute + second / 60, no contract |
| ClockTime.HourOf | app/src/main/java/com/study/myapplication/AnalogClock.java:129 | defines mHour as hour + mMinutes / 60, no contract |
| ClockTime.HourRotation | app/src/main/java/com/study/myapplication/AnalogClock.java:215 | defines the hour hand's rotation mHour / 12 * 360, no contract |
| ClockTime.MinuteRotation | app/src/main/java/com/study/myapplication/AnalogClock.java:234 | defines the minute hand's rotation mMinutes / 60 * 360, no contract |
| Measure.AxisScale | app/src/main/java/com/study/myapplication/AnalogClock.java:98-104 | defines hScale or vScale: size / dial on a constrained axis offering less than the dial, else 1, no contract |
| Measure.MeasureScale | app/src/main/java/com/study/myapplication/AnalogClock.java:106 | defines the uniform scale as the smaller axis scale, no contract |
| Measure.ScaledSide | app/src/main/java/com/study/myapplication/AnalogClock.java:107-108 | defines one dial side times the scale, cast to an int, no contract |
| Measure.DesiredSize | app/src/main/java/com/study/myapplication/AnalogClock.java:107-108 | defines the size passed on for resolving: both dial sides scaled by the uniform scale, no contract |
| Measure.Shrinks | app/src/main/java/com/study/myapplication/AnalogClock.java:98-104 | defines when an axis shrinks: constrained and below the dial, no contract |
| Canvas.Step | app/src/main/java/com/study/myapplication/AnalogClock.java:202-245 | defines one canvas call: save pushes the matrix, restore pops it (an error on an empty stack), scale and rotate extend the matrix, setBounds and draw, no contract |
| Canvas.Run | app/src/main/java/com/study/myapplication/AnalogClock.java:180-247 | defines replaying a list of calls, stopping at the first error, no contract |
| Canvas.Balance | app/src/main/java/com/study/myapplication/AnalogClock.java:202-245 | defines saves minus restores of a list of calls, no contract |
| Render.NeedsScale | app/src/main/java/com/study/myapplication/AnalogClock.java:198 | defines when the frame is scaled: the view is narrower or lower than the dial, no contract |
| Render.FrameScale | app/src/main/java/com/study/myapplication/AnalogClock.java:200-201 | defines the frame's factor as the smaller of the two axis ratios, no contract |
| Render.HandBounds | app/src/main/java/com/study/myapplication/AnalogClock.java:228 | defines a hand's bounds, centre minus and plus half of each intrinsic side, no contract |
| Render.DialBounds | app/src/main/java/com/study/myapplication/AnalogClock.java:207 | defines the dial's bounds as written, with top edge h - h/2, no contract |
| Render.ScalePrologue | app/src/main/java/com/study/myapplication/AnalogClock.java:198-204 | defines the opening save and scale about (x, y), made only when the frame is scaled, no contract |
| Render.DialOps | app/src/main/java/com/study/myapplication/AnalogClock.java:206-209 | defines the dial's calls: setBounds when the flag is set, then draw, no contract |
| Render.HandOps | app/src/main/java/com/study/myapplication/AnalogClock.java:210-242 | defines one hand's calls: save, rotate about (x, y), setBounds when the flag is set, draw, restore, no contract |
| Render.ScaleEpilogue | app/src/main/java/com/study/myapplication/AnalogClock.java:244-246 | defines the closing restore, made only when the frame is scaled, no contract |
| Render.DrawOps | app/src/main/java/com/study/myapplication/AnalogClock.java:180-247 | defines every call onDraw makes, in order, centred on half the view's width and height, no contract |
| Render.BaseMatrix | app/src/main/java/com/study/myapplication/AnalogClock.java:198-204 | defines the matrix the dial is drawn under: the caller's, plus the frame scale when there is one, no contract |
| Render.BoundsAfter | app/src/main/java/com/study/myapplication/AnalogClock.java:206-240 | defines the drawables' bounds after a draw: the new ones when the flag was set, else unchanged, no contract |
| Geometry.Half | app/src/main/java/com/study/myapplication/AnalogClock.java:192-193 | `n / 2` on Java ints: twice the result is n or n - 1 for n >= 0, and n or n + 1 for negative n (rounding toward zero) |
| Geometry.Trunc | app/src/main/java/com/study/myapplication/AnalogClock.java:107-108 | the `(int)` cast: the result is within one of the argument, on the side toward zero |
| Geometry.MinReal | app/src/main/java/com/study/myapplication/AnalogClock.java:106 | `Math.min`: the result is one of the two arguments and no larger than either |
| ClockTime.Orientation | app/src/main/java/com/study/myapplication/AnalogClock.java:215 | every rotation has a representative in [0, 360) that differs from it by whole turns |
| ClockTime.CanonicalOrientation | app/src/main/java/com/study/myapplication/AnalogClock.java:215 | two angles in [0, 360) that differ by whole turns are equal |
| ClockTime.OrientationShift | app/src/main/java/com/study/myapplication/AnalogClock.java:215 | adding whole turns to a rotation does not change where the image points |
| ClockTime.AngleRanges | app/src/main/java/com/study/myapplication/AnalogClock.java:124-129 | for hour < 24, minute < 60, second < 60: mMinutes is in [0, 60), mHour in [0, 24), the minute rotation in [0, 360) and the hour rotation in [0, 720) |
| ClockTime.CheckPoints | app/src/main/java/com/study/myapplication/AnalogClock.java:128-129 | 3:00:00 gives rotations 0 and 90 degrees; 6:30:00 gives 180 and 195 degrees |
| ClockTime.HourHandRate | app/src/main/java/com/study/myapplication/AnalogClock.java:129 | the hour hand turns 30 degrees per hour plus half a degree per minute |
| ClockTime.HourHandMonotonic | app/src/main/java/com/study/myapplication/AnalogClock.java:129 | within an hour, a later minute never turns the hour hand back |
| ClockTime.HourHandContinuous | app/src/main/java/com/study/myapplication/AnalogClock.java:128-129 | sixty minutes past hour h is exactly hour h + 1: no jump at the top of the hour |
| ClockTime.MinuteHandFullRevolution | app/src/main/java/com/study/myapplication/AnalogClock.java:234 | sixty more minutes add exactly one turn to the minute hand, so it points the same way |
| ClockTime.AfternoonMatchesMorning | app/src/main/java/com/study/myapplication/AnalogClock.java:215 | hour h + 12 rotates the hour hand one extra turn, so it points where hour h does |
| Measure.AxisScaleRange | app/src/main/java/com/study/myapplication/AnalogClock.java:95-104 | each axis scale is in [0, 1]; it is below 1 exactly when the axis is constrained below the dial, and then dial times scale is the offered size |
| Measure.ScaleInUnitRange | app/src/main/java/com/study/myapplication/AnalogClock.java:95-106 | the uniform scale is in [0, 1]; it is 1 exactly when no axis shrinks; a shrinking axis is never asked for more than it offers |
| Measure.ScaledSideWithin | app/src/main/java/com/study/myapplication/AnalogClock.java:107-108 | a side scaled by a factor in [0, 1] and truncated lies between 0 and the side |
| Measure.DesiredWithinDial | app/src/main/java/com/study/myapplication/AnalogClock.java:107-108 | the desired width and height are between 0 and the dial's |
| Measure.DesiredWithinConstraint | app/src/main/java/com/study/myapplication/AnalogClock.java:98-108 | on a constrained axis the desired size never exceeds the offered size |
| Measure.FullSizeIffNothingShrinks | app/src/main/java/com/study/myapplication/AnalogClock.java:95-108 | the view asks for the full dial if and only if no constrained axis is smaller than the dial |
| Measure.AspectPreserved | app/src/main/java/com/study/myapplication/AnalogClock.java:106-108 | the desired size keeps the dial's aspect ratio up to truncation: the cross products differ by less than one dial side |
| Measure.ScaledPairAspect | app/src/main/java/com/study/myapplication/AnalogClock.java:107-108 | both dial sides truncated after scaling by one non-negative factor keep the dial's aspect ratio up to truncation |
| Canvas.Bounds.Set | app/src/main/java/com/study/myapplication/AnalogClock.java:207 | setBounds changes the bounds of that drawable only |
| Canvas.Calls | app/src/main/java/com/study/myapplication/AnalogClock.java:180-247 | the calls of one kind picked from a list are all of that kind and no more than the list |
| Canvas.RunConcat | app/src/main/java/com/study/myapplication/AnalogClock.java:180-247 | replaying two call lists in turn is replaying their concatenation |
| Canvas.BalanceConcat | app/src/main/java/com/study/myapplication/AnalogClock.java:180-247 | saves minus restores is additive over concatenation |
| Canvas.CallsConcat | app/src/main/java/com/study/myapplication/AnalogClock.java:180-247 | picking the calls of one kind distributes over concatenation |
| Canvas.RunSucceedsIffNoUnderflow | app/src/main/java/com/study/myapplication/AnalogClock.java:202-246 | a replay succeeds if and only if no prefix restores more than was saved; the stack depth then changes by saves minus restores |
| Render.PrologueReplay | app/src/main/java/com/study/myapplication/AnalogClock.java:198-204 | the optional scale saves the caller's matrix and adds the frame scale exactly when the view is smaller than the dial |
| Render.DialReplay | app/src/main/java/com/study/myapplication/AnalogClock.java:206-209 | the dial is drawn under the current matrix, with new bounds exactly when the flag was set |
| Render.HandReplay | app/src/main/java/com/study/myapplication/AnalogClock.java:210-231 | a hand's calls leave matrix and stack as they were and draw the hand under the matrix plus its own rotation |
| Render.DrawReplay | app/src/main/java/com/study/myapplication/AnalogClock.java:180-247 | a whole draw on any canvas: matrix and stack end as they began; dial drawn under the base (possibly scaled) matrix; each hand under base plus its own rotation only; bounds are the new ones exactly when the flag was set |
| Render.DrawBalanced | app/src/main/java/com/study/myapplication/AnalogClock.java:202-246 | a draw makes as many saves as restores and never restores an empty stack, whatever the stack held before |
| Render.DrawCallsSplit | app/src/main/java/com/study/myapplication/AnalogClock.java:180-247 | the calls of one kind in a draw, part by part: scale, dial, hour hand, minute hand, closing restore |
| Render.PrologueCalls | app/src/main/java/com/study/myapplication/AnalogClock.java:198-204 | the opening part holds one save and one scale about (x, y) exactly when the view is smaller than the dial, else nothing |
| Render.DialCalls | app/src/main/java/com/study/myapplication/AnalogClock.java:206-209 | the dial's part holds its setBounds only when the flag was set, and always one draw |
| Render.EpilogueCalls | app/src/main/java/com/study/myapplication/AnalogClock.java:244-246 | the closing part is one restore exactly when the frame was scaled |
| Render.FrameCallsOfKind | app/src/main/java/com/study/myapplication/AnalogClock.java:198-209 | the calls of each kind in the scale, dial and closing parts together |
| Render.HandCallsOfKind | app/src/main/java/com/study/myapplication/AnalogClock.java:210-242 | a hand's part holds one save, one rotate, one draw, one restore, and its setBounds only when the flag was set |
| Render.ScaleCallIffSmaller | app/src/main/java/com/study/myapplication/AnalogClock.java:198-204 | a draw scales exactly when the view is narrower or lower than the dial, once, by the smaller axis ratio, about (x, y) |
| Render.FrameScaleShrinks | app/src/main/java/com/study/myapplication/AnalogClock.java:198-201 | when the frame is scaled the factor is below 1, and positive when the view has positive width and height |
| Render.RotationsOfDraw | app/src/main/java/com/study/myapplication/AnalogClock.java:210-242 | a draw rotates exactly twice, about (x, y): by the hour rotation and then by the minute rotation |
| Render.BoundsSetIffChanged | app/src/main/java/com/study/myapplication/AnalogClock.java:206-240 | a draw sets the three drawables' bounds, in order, if and only if the flag was set, and sets none otherwise |
| Render.HandBoundsCentred | app/src/main/java/com/study/myapplication/AnalogClock.java:228 | a hand's bounds are centred on (x, y), each side being the intrinsic side or one less |
| Render.DialBoundsAsWritten | app/src/main/java/com/study/myapplication/AnalogClock.java:207 | the dial's bounds are centred horizontally; the top is h - h/2, centred vertically only when the dial's height equals y, and otherwise shifted by h - y |
| Render.DialOffCentreExample | app/src/main/java/com/study/myapplication/AnalogClock.java:207 | a 200 by 200 dial in a 300 by 300 view spans y = 100 to 250, while a hand of that size spans 50 to 250 |
| AnalogClockView.AnalogClock.constructor | app/src/main/java/com/study/myapplication/AnalogClock.java:54-79 | loads the three images, records the dial's size, and leaves every other field at its default, neither attached nor registered |
| AnalogClockView.AnalogClock.OnMeasure | app/src/main/java/com/study/myapplication/AnalogClock.java:87-109 | the size computed step by step equals `Measure.DesiredSize`; it is within the dial, within every constrained axis, and the full dial exactly when no axis shrinks |
| AnalogClockView.AnalogClock.OnSizeChanged | app/src/main/java/com/study/myapplication/AnalogClock.java:112-115 | a size change sets the dirty flag and changes nothing else |
| AnalogClockView.AnalogClock.OnTimeChanged | app/src/main/java/com/study/myapplication/AnalogClock.java:120-132 | stores the fractional minute and hour of the reading and sets the flag; a valid reading keeps both in range |
| AnalogClockView.AnalogClock.OnReceive | app/src/main/java/com/study/myapplication/AnalogClock.java:137-148 | only a time-changed broadcast switches the zone; every broadcast samples the time, sets the flag and requests one redraw |
| AnalogClockView.AnalogClock.OnAttachedToWindow | app/src/main/java/com/study/myapplication/AnalogClock.java:152-168 | registers the receiver only if not yet attached, so the count ends at exactly 1; resets to the default zone and samples the time |
| AnalogClockView.AnalogClock.OnDetachedFromWindow | app/src/main/java/com/study/myapplication/AnalogClock.java:171-177 | unregisters only if attached, so the count ends at 0 |
| AnalogClockView.AnalogClock.DrawDial | app/src/main/java/com/study/myapplication/AnalogClock.java:206-209 | the dial's calls are `Render.DialOps`; its bounds become `Render.DialBounds` (top edge h - h/2) exactly when the flag was set, else stay; its intrinsic size is kept |
| AnalogClockView.AnalogClock.DrawHourHand | app/src/main/java/com/study/myapplication/AnalogClock.java:210-231 | the hour hand's calls are `Render.HandOps` with the hour rotation; its bounds become the centred `Render.HandBounds` exactly when the flag was set, else stay |
| AnalogClockView.AnalogClock.DrawMinuteHand | app/src/main/java/com/study/myapplication/AnalogClock.java:232-242 | the minute hand's calls are `Render.HandOps` with the minute rotation; its bounds become the centred `Render.HandBounds` exactly when the flag was set, else stay |
| AnalogClockView.AnalogClock.OnDraw | app/src/main/java/com/study/myapplication/AnalogClock.java:180-247 | the calls made step by step equal `Render.DrawOps` for the flag on entry; they balance saves and restores; the flag ends cleared; bounds change exactly when the flag was set |
| AnalogClockView.AttachTwice | app/src/main/java/com/study/myapplication/AnalogClock.java:152-168 | attaching twice registers the receiver once |
| AnalogClockView.DetachUnattached | app/src/main/java/com/study/myapplication/AnalogClock.java:171-177 | detaching a view that is not attached unregisters nothing |
| AnalogClockView.DetachThenReattach | app/src/main/java/com/study/myapplication/AnalogClock.java:152-177 | detach then attach leaves exactly one registration |
| AnalogClockView.SampleTwice | app/src/main/java/com/study/myapplication/AnalogClock.java:120-132 | sampling the same reading twice gives the same minute and hour as sampling it once |
| AnalogClockView.DrawAfterBroadcast | app/src/main/java/com/study/myapplication/AnalogClock.java:137-247 | after a broadcast the next draw sets bounds, the draw after it sets none, and both make the same rotations |

## Left out

- Loading the three images from resources (lines 58-78) is not modelled. Their intrinsic sizes are constructor parameters and are taken to be positive.
- The one- and two-argument constructors (lines 46-52) are not modelled. They leave the drawables and the calendar null and the dial's size at 0. Measuring such a view asks for 0 by 0; drawing it fails at line 195, where the null dial is asked for its width.
- Receiver registration (lines 135-149 and 157-163) is Android inter-process plumbing. The model keeps only a count of registrations, and `invalidate` is a count of redraw requests.
- Reading the clock (`Time.setToNow`, line 122) is replaced by hour, minute and second parameters. The zone lookup (`TimeZone.getTimeZone`, line 142) is replaced by the zone id it resolves to, so a missing or unknown "time-zone" extra is not modelled. A missing extra is the usual case: the platform's time-changed broadcast ordinarily carries none, so lines 141-142 usually look up a null id.
- Decoding the measure specs and resolving and setting the measured size (lines 89-93 and 107-108) are library calls. `OnMeasure` returns the desired size before it is resolved against the constraint.
- Calls to the superclass are not modelled: the constructors' `super(...)` (lines 47, 51 and 55), `super.onSizeChanged` (line 113), `super.onAttachedToWindow` (line 153), `super.onDetachedFromWindow` (line 172) and `super.onDraw` (line 181). Rasterisation is not modelled either. A draw is the list of canvas calls it makes.
- Floats are modelled as exact reals, so the model says nothing about float rounding in `second / 60.0f`, the scale divisions or the rotation angles.
- Ints are unbounded, so 32-bit overflow in `getRight() - getLeft()` or in the bounds arithmetic is not modelled.
- ClockTime.AngleRanges: the range facts assume `second < 60`. Android's `Time` allows `second` to be up to 61. At minute 59 a second of 60 makes the minute value exactly 60 and a second of 61 puts it above 60; at 23:59:60 the hour value is exactly 24 and at 23:59:61 above 24. At any earlier minute both stay in range.
- Threading and the order of event delivery are not modelled.
