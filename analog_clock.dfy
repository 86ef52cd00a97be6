/** The AnalogClock view itself: the state it keeps between callbacks and
    the callbacks the host toolkit makes — measure, size change, attach and
    detach, the time broadcast, and draw. The wall-clock reading is an input
    of each callback that samples it; receiver registration is a count. */
module AnalogClockView {
  import opened Geometry
  import opened Canvas
  import opened ClockTime
  import Measure
  import Render

  /** One of the view's three images: its intrinsic size and the bounds it
      was last given with setBounds. */
  datatype Drawable = Drawable(intrinsic: Size, bounds: Rect)

  /** The zone mCalendar reads the time in: the device default, or the
      zone a broadcast named. */
  datatype Zone = DefaultZone | NamedZone(id: string)

  /** The broadcasts the receiver is registered for. */
  datatype Action = TimeTick | TimeChanged | TimezoneChanged

  class AnalogClock {
    var hourHand: Drawable
    var minuteHand: Drawable
    var dial: Drawable
    /** The time zone of mCalendar. */
    var zone: Zone
    /** mDialWidth and mDialHeight, read once from the dial. */
    const dialWidth: pos
    const dialHeight: pos
    /** Set by a size or time change, read and cleared by a draw. */
    var changed: bool
    var minutes: real
    var hour: real
    var attached: bool
    /** How many times the time receiver is currently registered. */
    var registrations: nat
    /** How many redraws the view has requested with invalidate. */
    var redrawRequests: nat

    /** At most one subscription, held exactly while attached; the dial's
        size fields agree with the dial. */
    ghost predicate Valid()
      reads this
    {
      && registrations == (if attached then 1 else 0)
      && dial.intrinsic == Size(dialWidth, dialHeight)
    }

    /** The images of the view, as onDraw reads their intrinsic sizes. */
    function Face(): Render.Face
      reads this
    {
      Render.Face(dial.intrinsic, hourHand.intrinsic, minuteHand.intrinsic)
    }

    /** The drawables' current bounds. */
    function CurrentBounds(): Bounds
      reads this
    {
      Bounds(dial.bounds, hourHand.bounds, minuteHand.bounds)
    }

    /** The constructor that loads the three images; their intrinsic sizes
        are its parameters. Every other field starts at Java's default. */
    constructor (dialSize: Size, hourHandSize: Size, minuteHandSize: Size)
      ensures Valid()
      ensures dial == Drawable(dialSize, Rect(0, 0, 0, 0))
      ensures hourHand == Drawable(hourHandSize, Rect(0, 0, 0, 0))
      ensures minuteHand == Drawable(minuteHandSize, Rect(0, 0, 0, 0))
      ensures dialWidth == dialSize.width && dialHeight == dialSize.height
      ensures zone == DefaultZone
      ensures !changed && !attached && registrations == 0 && redrawRequests == 0
      ensures minutes == 0.0 && hour == 0.0
    {
      dial := Drawable(dialSize, Rect(0, 0, 0, 0));
      hourHand := Drawable(hourHandSize, Rect(0, 0, 0, 0));
      minuteHand := Drawable(minuteHandSize, Rect(0, 0, 0, 0));
      zone := DefaultZone;
      dialWidth := dialSize.width;
      dialHeight := dialSize.height;
      changed := false;
      minutes := 0.0;
      hour := 0.0;
      attached := false;
      registrations := 0;
      redrawRequests := 0;
    }

    /** The size onMeasure asks for, before the toolkit resolves it: on a
        constrained axis never more than offered, never more than the dial,
        and the full dial
        exactly when no constrained axis is smaller than the dial. */
    method OnMeasure(widthMode: Measure.Mode, widthSize: nat, heightMode: Measure.Mode, heightSize: nat)
      returns (desired: Measure.Dimension)
      ensures desired == Measure.DesiredSize(widthMode, widthSize, heightMode, heightSize, Size(dialWidth, dialHeight))
      ensures 0 <= desired.width <= dialWidth && 0 <= desired.height <= dialHeight
      ensures widthMode != Measure.Unspecified ==> desired.width <= widthSize
      ensures heightMode != Measure.Unspecified ==> desired.height <= heightSize
      ensures desired == Measure.Dimension(dialWidth, dialHeight)
          <==> !Measure.Shrinks(widthMode, widthSize, dialWidth) && !Measure.Shrinks(heightMode, heightSize, dialHeight)
    {
      var hScale := 1.0;
      var vScale := 1.0;
      if widthMode != Measure.Unspecified && widthSize < dialWidth {
        hScale := widthSize as real / dialWidth as real;
      }
      if heightMode != Measure.Unspecified && heightSize < dialHeight {
        vScale := heightSize as real / dialHeight as real;
      }
      assert hScale == Measure.AxisScale(widthMode, widthSize, dialWidth);
      assert vScale == Measure.AxisScale(heightMode, heightSize, dialHeight);
      var scale := MinReal(hScale, vScale);
      var dialSize := Size(dialWidth, dialHeight);
      assert scale == Measure.MeasureScale(widthMode, widthSize, heightMode, heightSize, dialSize);
      desired := Measure.Dimension(Measure.ScaledSide(dialWidth, scale), Measure.ScaledSide(dialHeight, scale));
      assert desired == Measure.DesiredSize(widthMode, widthSize, heightMode, heightSize, dialSize);
      assert 0 <= desired.width <= dialWidth && 0 <= desired.height <= dialHeight by {
        Measure.DesiredWithinDial(widthMode, widthSize, heightMode, heightSize, dialSize);
      }
      assert (widthMode != Measure.Unspecified ==> desired.width <= widthSize)
          && (heightMode != Measure.Unspecified ==> desired.height <= heightSize) by {
        Measure.DesiredWithinConstraint(widthMode, widthSize, heightMode, heightSize, dialSize);
      }
      assert desired == Measure.Dimension(dialWidth, dialHeight)
          <==> !Measure.Shrinks(widthMode, widthSize, dialWidth) && !Measure.Shrinks(heightMode, heightSize, dialHeight) by {
        Measure.FullSizeIffNothingShrinks(widthMode, widthSize, heightMode, heightSize, dialSize);
      }
    }

    /** A size change marks the bounds for recomputation and nothing else. */
    method OnSizeChanged(w: int, h: int, oldw: int, oldh: int)
      requires Valid()
      modifies this`changed
      ensures Valid()
      ensures changed
    {
      changed := true;
    }

    /** Store the fractional minute and hour of the given reading and mark
        the view changed. */
    method OnTimeChanged(hourNow: int, minuteNow: int, secondNow: int)
      requires Valid()
      modifies this`minutes, this`hour, this`changed
      ensures Valid()
      ensures minutes == MinutesOf(minuteNow, secondNow)
      ensures hour == HourOf(hourNow, minutes)
      ensures changed
      ensures 0 <= hourNow < 24 && 0 <= minuteNow < 60 && 0 <= secondNow < 60
          ==> 0.0 <= minutes < 60.0 && 0.0 <= hour < 24.0
    {
      minutes := minuteNow as real + secondNow as real / 60.0;
      hour := hourNow as real + minutes / 60.0;
      changed := true;
      if 0 <= hourNow < 24 && 0 <= minuteNow < 60 && 0 <= secondNow < 60 {
        AngleRanges(hourNow, minuteNow, secondNow);
      }
    }

    /** The time receiver: a TimeChanged broadcast switches the calendar to
        the zone it resolves to (`zoneId`); every broadcast then samples the
        time and requests a redraw. A TimezoneChanged broadcast does not
        switch zones. */
    method OnReceive(action: Action, zoneId: string, hourNow: int, minuteNow: int, secondNow: int)
      requires Valid()
      modifies this`zone, this`minutes, this`hour, this`changed, this`redrawRequests
      ensures Valid()
      ensures zone == if action == TimeChanged then NamedZone(zoneId) else old(zone)
      ensures minutes == MinutesOf(minuteNow, secondNow)
      ensures hour == HourOf(hourNow, minutes)
      ensures changed
      ensures redrawRequests == old(redrawRequests) + 1
    {
      if action == TimeChanged {
        zone := NamedZone(zoneId);
      }
      OnTimeChanged(hourNow, minuteNow, secondNow);
      redrawRequests := redrawRequests + 1;
    }

    /** Attaching registers the receiver unless it already is, then resets
        the calendar to the default zone and samples the time. */
    method OnAttachedToWindow(hourNow: int, minuteNow: int, secondNow: int)
      requires Valid()
      modifies this`attached, this`registrations, this`zone, this`minutes, this`hour, this`changed
      ensures Valid()
      ensures attached && registrations == 1
      ensures registrations == old(registrations) + (if old(attached) then 0 else 1)
      ensures zone == DefaultZone
      ensures minutes == MinutesOf(minuteNow, secondNow)
      ensures hour == HourOf(hourNow, minutes)
      ensures changed
    {
      if !attached {
        attached := true;
        registrations := registrations + 1;
      }
      zone := DefaultZone;
      OnTimeChanged(hourNow, minuteNow, secondNow);
    }

    /** Detaching unregisters the receiver if it is registered; a detached
        view unregisters nothing. */
    method OnDetachedFromWindow()
      requires Valid()
      modifies this`attached, this`registrations
      ensures Valid()
      ensures !attached && registrations == 0
      ensures registrations == old(registrations) - (if old(attached) then 1 else 0)
    {
      if attached {
        registrations := registrations - 1;
        attached := false;
      }
    }

    /** The dial's part of a draw (lines 206-209): new bounds when the flag
        was set, with the top edge as the code computes it, then the draw. */
    method DrawDial(wasChanged: bool, x: int, y: int) returns (calls: seq<Op>)
      modifies this`dial
      ensures calls == Render.DialOps(wasChanged, x, y, dial.intrinsic)
      ensures dial.intrinsic == old(dial.intrinsic)
      ensures dial.bounds == if wasChanged then Render.DialBounds(x, y, dial.intrinsic) else old(dial.bounds)
    {
      var w := dial.intrinsic.width;
      var h := dial.intrinsic.height;
      calls := [];
      if wasChanged {
        dial := dial.(bounds := Rect(x - Half(w), h - Half(h), x + Half(w), y + Half(h)));
        calls := [SetBounds(Dial, dial.bounds)];
      }
      calls := calls + [DrawImage(Dial)];
    }

    /** The hour hand's part of a draw (lines 210-231): save, rotate about
        the centre, new centred bounds when the flag was set, draw, restore. */
    method DrawHourHand(wasChanged: bool, x: int, y: int) returns (calls: seq<Op>)
      modifies this`hourHand
      ensures calls == Render.HandOps(wasChanged, HourHand, HourRotation(hour), x, y, hourHand.intrinsic)
      ensures hourHand.intrinsic == old(hourHand.intrinsic)
      ensures hourHand.bounds == if wasChanged then Render.HandBounds(x, y, hourHand.intrinsic) else old(hourHand.bounds)
    {
      calls := [Save, Rotate(HourRotation(hour), x, y)];
      if wasChanged {
        var w := hourHand.intrinsic.width;
        var h := hourHand.intrinsic.height;
        hourHand := hourHand.(bounds := Rect(x - Half(w), y - Half(h), x + Half(w), y + Half(h)));
        calls := calls + [SetBounds(HourHand, hourHand.bounds)];
      }
      calls := calls + [DrawImage(HourHand), Restore];
    }

    /** The minute hand's part of a draw (lines 232-242), drawn like the hour
        hand's under its own save and rotation. */
    method DrawMinuteHand(wasChanged: bool, x: int, y: int) returns (calls: seq<Op>)
      modifies this`minuteHand
      ensures calls == Render.HandOps(wasChanged, MinuteHand, MinuteRotation(minutes), x, y, minuteHand.intrinsic)
      ensures minuteHand.intrinsic == old(minuteHand.intrinsic)
      ensures minuteHand.bounds == if wasChanged then Render.HandBounds(x, y, minuteHand.intrinsic) else old(minuteHand.bounds)
    {
      calls := [Save, Rotate(MinuteRotation(minutes), x, y)];
      if wasChanged {
        var w := minuteHand.intrinsic.width;
        var h := minuteHand.intrinsic.height;
        minuteHand := minuteHand.(bounds := Rect(x - Half(w), y - Half(h), x + Half(w), y + Half(h)));
        calls := calls + [SetBounds(MinuteHand, minuteHand.bounds)];
      }
      calls := calls + [DrawImage(MinuteHand), Restore];
    }

    /** Draw the clock into a view laid out at (left, top, right, bottom):
        the calls made are those Render.DrawOps describes for the flag as it
        was on entry; the flag is cleared; the drawables get new bounds
        exactly when the flag was set. */
    method OnDraw(left: int, top: int, right: int, bottom: int) returns (ops: seq<Op>)
      requires Valid()
      modifies this`changed, this`dial, this`hourHand, this`minuteHand
      ensures Valid()
      ensures ops == Render.DrawOps(old(changed), right - left, bottom - top, old(Face()), hour, minutes)
      ensures !changed
      ensures Face() == old(Face())
      ensures CurrentBounds() == Render.BoundsAfter(old(changed), old(CurrentBounds()), right - left, bottom - top, Face())
      ensures Balance(ops) == 0
    {
      ghost var face := Face();
      var wasChanged := changed;
      if wasChanged {
        changed := false;
      }
      var availableWidth := right - left;
      var availableHeight := bottom - top;
      var x := Half(availableWidth);
      var y := Half(availableHeight);
      var w := dial.intrinsic.width;
      var h := dial.intrinsic.height;
      ops := [];
      var scaled := false;
      if availableWidth < w || availableHeight < h {
        scaled := true;
        var scale := MinReal(availableWidth as real / w as real, availableHeight as real / h as real);
        ops := [Save, Scale(scale, x, y)];
      }
      assert ops == Render.ScalePrologue(availableWidth, availableHeight, face.dial);
      var dialCalls := DrawDial(wasChanged, x, y);
      var hourCalls := DrawHourHand(wasChanged, x, y);
      var minuteCalls := DrawMinuteHand(wasChanged, x, y);
      assert Face() == face;
      ops := ops + dialCalls + hourCalls + minuteCalls;
      ghost var body := ops;
      if scaled {
        ops := ops + [Restore];
      }
      assert ops == body + Render.ScaleEpilogue(availableWidth, availableHeight, face.dial);
      assert ops == Render.DrawOps(wasChanged, availableWidth, availableHeight, face, hour, minutes);
      Render.DrawBalanced(wasChanged, availableWidth, availableHeight, face, hour, minutes, 0);
    }
  }

  /** Attaching twice registers the receiver once. */
  method AttachTwice(clock: AnalogClock, hourNow: int, minuteNow: int, secondNow: int)
    requires clock.Valid() && !clock.attached
    modifies clock
    ensures clock.Valid() && clock.registrations == 1
  {
    clock.OnAttachedToWindow(hourNow, minuteNow, secondNow);
    clock.OnAttachedToWindow(hourNow, minuteNow, secondNow);
  }

  /** Detaching a view that is not attached unregisters nothing. */
  method DetachUnattached(clock: AnalogClock)
    requires clock.Valid() && !clock.attached
    modifies clock
    ensures clock.Valid() && clock.registrations == 0 == old(clock.registrations)
  {
    clock.OnDetachedFromWindow();
  }

  /** Detaching and reattaching subscribes again exactly once. */
  method DetachThenReattach(clock: AnalogClock, hourNow: int, minuteNow: int, secondNow: int)
    requires clock.Valid() && clock.attached
    modifies clock
    ensures clock.Valid() && clock.attached && clock.registrations == 1
  {
    clock.OnDetachedFromWindow();
    assert clock.registrations == 0;
    clock.OnAttachedToWindow(hourNow, minuteNow, secondNow);
  }

  /** Sampling the same reading twice leaves the same minute and hour. */
  method SampleTwice(clock: AnalogClock, hourNow: int, minuteNow: int, secondNow: int)
    requires clock.Valid()
    modifies clock
    ensures clock.Valid()
    ensures clock.minutes == MinutesOf(minuteNow, secondNow)
    ensures clock.hour == HourOf(hourNow, MinutesOf(minuteNow, secondNow))
  {
    clock.OnTimeChanged(hourNow, minuteNow, secondNow);
    var m, h := clock.minutes, clock.hour;
    clock.OnTimeChanged(hourNow, minuteNow, secondNow);
    assert clock.minutes == m && clock.hour == h;
  }

  /** A draw after a broadcast sets the bounds; a second draw with nothing in
      between sets none, and both make the same rotations. */
  method DrawAfterBroadcast(clock: AnalogClock, action: Action, zoneId: string,
                            hourNow: int, minuteNow: int, secondNow: int,
                            left: int, top: int, right: int, bottom: int)
    returns (first: seq<Op>, second: seq<Op>)
    requires clock.Valid()
    modifies clock
    ensures clock.Valid()
    ensures Calls(first, SetBoundsKind) != []
    ensures Calls(second, SetBoundsKind) == []
    ensures Calls(first, RotateKind) == Calls(second, RotateKind)
    ensures !clock.changed
  {
    clock.OnReceive(action, zoneId, hourNow, minuteNow, secondNow);
    var w, h := right - left, bottom - top;
    first := clock.OnDraw(left, top, right, bottom);
    ghost var face, hour, minutes := clock.Face(), clock.hour, clock.minutes;
    assert first == Render.DrawOps(true, w, h, face, hour, minutes);
    Render.BoundsSetIffChanged(true, w, h, face, hour, minutes);
    Render.RotationsOfDraw(true, w, h, face, hour, minutes);
    second := clock.OnDraw(left, top, right, bottom);
    assert second == Render.DrawOps(false, w, h, face, hour, minutes);
    Render.BoundsSetIffChanged(false, w, h, face, hour, minutes);
    Render.RotationsOfDraw(false, w, h, face, hour, minutes);
  }
}
