/** What onDraw does to the canvas, as the list of calls it makes: centre
    on the middle of the view, scale the whole frame down when the view is
    smaller than the dial, draw the dial unrotated, then each hand inside
    its own save/restore pair rotated about the centre. Bounds are set only
    on a draw that follows a size or time change. */
module Render {
  import opened Geometry
  import opened Canvas
  import opened ClockTime

  /** Intrinsic sizes of the three images. */
  datatype Face = Face(dial: Size, hourHand: Size, minuteHand: Size)

  /** The frame is scaled when the view is narrower or lower than the dial. */
  predicate NeedsScale(availableWidth: int, availableHeight: int, dial: Size)
  {
    availableWidth < dial.width || availableHeight < dial.height
  }

  /** The uniform factor of the frame: the smaller of the two axis ratios. */
  function FrameScale(availableWidth: int, availableHeight: int, dial: Size): real
  {
    MinReal(availableWidth as real / dial.width as real, availableHeight as real / dial.height as real)
  }

  /** A hand's bounds: centre minus and plus half of each intrinsic side. */
  function HandBounds(x: int, y: int, hand: Size): Rect
  {
    Rect(x - Half(hand.width), y - Half(hand.height), x + Half(hand.width), y + Half(hand.height))
  }

  /** The dial's bounds as the code computes them: the top edge is
      `h - h/2`, with the dial's height where the centre's y would be. */
  function DialBounds(x: int, y: int, dial: Size): Rect
  {
    Rect(x - Half(dial.width), dial.height - Half(dial.height), x + Half(dial.width), y + Half(dial.height))
  }

  /** The optional scale at the start of the frame. */
  function ScalePrologue(availableWidth: int, availableHeight: int, dial: Size): seq<Op>
  {
    if NeedsScale(availableWidth, availableHeight, dial)
    then [Save, Scale(FrameScale(availableWidth, availableHeight, dial), Half(availableWidth), Half(availableHeight))]
    else []
  }

  /** The dial: new bounds if the flag was set, then the image. */
  function DialOps(changed: bool, x: int, y: int, dial: Size): seq<Op>
  {
    (if changed then [SetBounds(Dial, DialBounds(x, y, dial))] else []) + [DrawImage(Dial)]
  }

  /** One hand: save, rotate about the centre, new bounds if the flag was
      set, draw, restore. */
  function HandOps(changed: bool, layer: Layer, degrees: real, x: int, y: int, hand: Size): seq<Op>
  {
    [Save, Rotate(degrees, x, y)]
    + (if changed then [SetBounds(layer, HandBounds(x, y, hand))] else [])
    + [DrawImage(layer), Restore]
  }

  /** The restore that undoes the optional scale. */
  function ScaleEpilogue(availableWidth: int, availableHeight: int, dial: Size): seq<Op>
  {
    if NeedsScale(availableWidth, availableHeight, dial) then [Restore] else []
  }

  /** Every call onDraw makes, in order. */
  function DrawOps(changed: bool, availableWidth: int, availableHeight: int, face: Face, hour: real, minutes: real): seq<Op>
  {
    var x, y := Half(availableWidth), Half(availableHeight);
    ScalePrologue(availableWidth, availableHeight, face.dial)
    + DialOps(changed, x, y, face.dial)
    + HandOps(changed, HourHand, HourRotation(hour), x, y, face.hourHand)
    + HandOps(changed, MinuteHand, MinuteRotation(minutes), x, y, face.minuteHand)
    + ScaleEpilogue(availableWidth, availableHeight, face.dial)
  }

  /** The matrix the dial is drawn under: the caller's, plus the frame scale
      about the centre when there is one. */
  function BaseMatrix(matrix: seq<Transform>, availableWidth: int, availableHeight: int, dial: Size): seq<Transform>
  {
    if NeedsScale(availableWidth, availableHeight, dial)
    then matrix + [Scaled(FrameScale(availableWidth, availableHeight, dial), Half(availableWidth), Half(availableHeight))]
    else matrix
  }

  /** The bounds the drawables hold after a draw. */
  function BoundsAfter(changed: bool, before: Bounds, availableWidth: int, availableHeight: int, face: Face): Bounds
  {
    var x, y := Half(availableWidth), Half(availableHeight);
    if changed
    then Bounds(DialBounds(x, y, face.dial), HandBounds(x, y, face.hourHand), HandBounds(x, y, face.minuteHand))
    else before
  }

  /** Replaying one hand's calls leaves the matrix and stack as they were and
      draws the hand under the matrix plus its own rotation only. */
  lemma {:induction false} HandReplay(sc: Scene, changed: bool, layer: Layer, degrees: real, x: int, y: int, hand: Size)
    ensures var b := if changed then sc.bounds.Set(layer, HandBounds(x, y, hand)) else sc.bounds;
      Run(sc, HandOps(changed, layer, degrees, x, y, hand))
      == Some(Scene(sc.matrix, sc.saved, b, sc.drawn + [Blit(layer, b.Get(layer), sc.matrix + [Rotated(degrees, x, y)])]))
  {
    var head := [Save, Rotate(degrees, x, y)];
    var mid := if changed then [SetBounds(layer, HandBounds(x, y, hand))] else [];
    var tail := [DrawImage(layer), Restore];
    RunConcat(sc, head + mid, tail);
    RunConcat(sc, head, mid);
    var s1 := sc.(saved := sc.saved + [sc.matrix], matrix := sc.matrix + [Rotated(degrees, x, y)]);
    assert Run(sc, head) == Some(s1) by {
      assert head == [Save] + [Rotate(degrees, x, y)];
      RunCons(sc, Save, [Rotate(degrees, x, y)]);
      RunOne(sc.(saved := sc.saved + [sc.matrix]), Rotate(degrees, x, y));
    }
    var b := if changed then sc.bounds.Set(layer, HandBounds(x, y, hand)) else sc.bounds;
    var s2 := s1.(bounds := b);
    assert Run(s1, mid) == Some(s2) by {
      if changed {
        RunOne(s1, SetBounds(layer, HandBounds(x, y, hand)));
      }
    }
    assert s2.saved[..|s2.saved| - 1] == sc.saved;
    assert Run(s2, tail) == Some(Scene(sc.matrix, sc.saved, b, sc.drawn + [Blit(layer, b.Get(layer), sc.matrix + [Rotated(degrees, x, y)])])) by {
      assert tail == [DrawImage(layer)] + [Restore];
      RunCons(s2, DrawImage(layer), [Restore]);
      RunOne(s2.(drawn := s2.drawn + [Blit(layer, b.Get(layer), s2.matrix)]), Restore);
    }
  }

  /** The whole draw, replayed on any canvas: the matrix and the save stack
      end as they began; the dial is drawn under the base matrix and each
      hand under the base matrix plus its own rotation about the centre
      (the minute hand's rotation is not stacked on the hour hand's); the
      bounds used are the new ones exactly when the flag was set. */
  lemma {:induction false} DrawReplay(sc: Scene, changed: bool, availableWidth: int, availableHeight: int, face: Face, hour: real, minutes: real)
    ensures var x, y := Half(availableWidth), Half(availableHeight);
      var base := BaseMatrix(sc.matrix, availableWidth, availableHeight, face.dial);
      var b := BoundsAfter(changed, sc.bounds, availableWidth, availableHeight, face);
      Run(sc, DrawOps(changed, availableWidth, availableHeight, face, hour, minutes))
      == Some(Scene(sc.matrix, sc.saved, b, sc.drawn + [
           Blit(Dial, b.dial, base),
           Blit(HourHand, b.hourHand, base + [Rotated(HourRotation(hour), x, y)]),
           Blit(MinuteHand, b.minuteHand, base + [Rotated(MinuteRotation(minutes), x, y)])]))
  {
    var x, y := Half(availableWidth), Half(availableHeight);
    var pro := ScalePrologue(availableWidth, availableHeight, face.dial);
    var dialOps := DialOps(changed, x, y, face.dial);
    var hourOps := HandOps(changed, HourHand, HourRotation(hour), x, y, face.hourHand);
    var minuteOps := HandOps(changed, MinuteHand, MinuteRotation(minutes), x, y, face.minuteHand);
    var epi := ScaleEpilogue(availableWidth, availableHeight, face.dial);
    var scaled := NeedsScale(availableWidth, availableHeight, face.dial);
    var base := BaseMatrix(sc.matrix, availableWidth, availableHeight, face.dial);
    var b := BoundsAfter(changed, sc.bounds, availableWidth, availableHeight, face);
    var stack := if scaled then sc.saved + [sc.matrix] else sc.saved;

    RunConcat(sc, pro + dialOps + hourOps + minuteOps, epi);
    RunConcat(sc, pro + dialOps + hourOps, minuteOps);
    RunConcat(sc, pro + dialOps, hourOps);
    RunConcat(sc, pro, dialOps);

    var s1 := Scene(base, stack, sc.bounds, sc.drawn);
    PrologueReplay(sc, availableWidth, availableHeight, face.dial);
    var bDial := if changed then sc.bounds.Set(Dial, DialBounds(x, y, face.dial)) else sc.bounds;
    var s2 := Scene(base, stack, bDial, sc.drawn + [Blit(Dial, b.dial, base)]);
    DialReplay(s1, changed, x, y, face.dial);

    HandReplay(s2, changed, HourHand, HourRotation(hour), x, y, face.hourHand);
    var bHour := if changed then bDial.Set(HourHand, HandBounds(x, y, face.hourHand)) else bDial;
    var s3 := Scene(base, stack, bHour, s2.drawn + [Blit(HourHand, b.hourHand, base + [Rotated(HourRotation(hour), x, y)])]);
    assert Run(s2, hourOps) == Some(s3);

    HandReplay(s3, changed, MinuteHand, MinuteRotation(minutes), x, y, face.minuteHand);
    assert bHour.Set(MinuteHand, HandBounds(x, y, face.minuteHand)) == b || !changed;
    var s4 := Scene(base, stack, b, s3.drawn + [Blit(MinuteHand, b.minuteHand, base + [Rotated(MinuteRotation(minutes), x, y)])]);
    assert Run(s3, minuteOps) == Some(s4);

    var s5 := Scene(sc.matrix, sc.saved, b, s4.drawn);
    assert Run(s4, epi) == Some(s5) by {
      if scaled {
        assert stack[..|stack| - 1] == sc.saved;
        RunOne(s4, Restore);
      }
    }
    assert s4.drawn == sc.drawn + [
           Blit(Dial, b.dial, base),
           Blit(HourHand, b.hourHand, base + [Rotated(HourRotation(hour), x, y)]),
           Blit(MinuteHand, b.minuteHand, base + [Rotated(MinuteRotation(minutes), x, y)])];
  }

  /** Replaying the optional scale pushes the caller's matrix and adds the
      frame scale exactly when the frame is scaled. */
  lemma PrologueReplay(sc: Scene, availableWidth: int, availableHeight: int, dial: Size)
    ensures Run(sc, ScalePrologue(availableWidth, availableHeight, dial))
         == Some(Scene(BaseMatrix(sc.matrix, availableWidth, availableHeight, dial),
                       if NeedsScale(availableWidth, availableHeight, dial) then sc.saved + [sc.matrix] else sc.saved,
                       sc.bounds, sc.drawn))
  {
    if NeedsScale(availableWidth, availableHeight, dial) {
      var scale := Scale(FrameScale(availableWidth, availableHeight, dial), Half(availableWidth), Half(availableHeight));
      assert ScalePrologue(availableWidth, availableHeight, dial) == [Save] + [scale];
      RunCons(sc, Save, [scale]);
      RunOne(sc.(saved := sc.saved + [sc.matrix]), scale);
    }
  }

  /** Replaying the dial's calls draws the dial under the current matrix,
      with the new bounds exactly when the flag was set. */
  lemma DialReplay(sc: Scene, changed: bool, x: int, y: int, dial: Size)
    ensures var b := if changed then sc.bounds.Set(Dial, DialBounds(x, y, dial)) else sc.bounds;
      Run(sc, DialOps(changed, x, y, dial)) == Some(sc.(bounds := b, drawn := sc.drawn + [Blit(Dial, b.dial, sc.matrix)]))
  {
    if changed {
      var setDial := SetBounds(Dial, DialBounds(x, y, dial));
      assert DialOps(changed, x, y, dial) == [setDial] + [DrawImage(Dial)];
      RunCons(sc, setDial, [DrawImage(Dial)]);
      RunOne(sc.(bounds := sc.bounds.Set(Dial, DialBounds(x, y, dial))), DrawImage(Dial));
    } else {
      assert DialOps(changed, x, y, dial) == [DrawImage(Dial)];
      RunOne(sc, DrawImage(Dial));
    }
  }

  /** The save/restore calls of a draw are balanced and never pop an empty
      stack, whatever the canvas's stack held before. */
  lemma {:induction false} DrawBalanced(changed: bool, availableWidth: int, availableHeight: int, face: Face, hour: real, minutes: real, depth: nat)
    ensures Balance(DrawOps(changed, availableWidth, availableHeight, face, hour, minutes)) == 0
    ensures NeverUnderflows(DrawOps(changed, availableWidth, availableHeight, face, hour, minutes), depth)
  {
    var ops := DrawOps(changed, availableWidth, availableHeight, face, hour, minutes);
    var empty := Rect(0, 0, 0, 0);
    var sc := Scene([], seq(depth, _ => []), Bounds(empty, empty, empty), []);
    DrawReplay(sc, changed, availableWidth, availableHeight, face, hour, minutes);
    RunSucceedsIffNoUnderflow(sc, ops);
  }

  /** Picking out the calls of one kind, part by part. */
  lemma {:induction false} DrawCallsSplit(changed: bool, availableWidth: int, availableHeight: int, face: Face, hour: real, minutes: real, kind: Kind)
    ensures var x, y := Half(availableWidth), Half(availableHeight);
      Calls(DrawOps(changed, availableWidth, availableHeight, face, hour, minutes), kind)
      == Calls(ScalePrologue(availableWidth, availableHeight, face.dial), kind)
       + Calls(DialOps(changed, x, y, face.dial), kind)
       + Calls(HandOps(changed, HourHand, HourRotation(hour), x, y, face.hourHand), kind)
       + Calls(HandOps(changed, MinuteHand, MinuteRotation(minutes), x, y, face.minuteHand), kind)
       + Calls(ScaleEpilogue(availableWidth, availableHeight, face.dial), kind)
  {
    var x, y := Half(availableWidth), Half(availableHeight);
    var pro := ScalePrologue(availableWidth, availableHeight, face.dial);
    var dialOps := DialOps(changed, x, y, face.dial);
    var hourOps := HandOps(changed, HourHand, HourRotation(hour), x, y, face.hourHand);
    var minuteOps := HandOps(changed, MinuteHand, MinuteRotation(minutes), x, y, face.minuteHand);
    var epi := ScaleEpilogue(availableWidth, availableHeight, face.dial);
    CallsConcat(pro + dialOps + hourOps + minuteOps, epi, kind);
    CallsConcat(pro + dialOps + hourOps, minuteOps, kind);
    CallsConcat(pro + dialOps, hourOps, kind);
    CallsConcat(pro, dialOps, kind);
  }

  /** The calls of one kind in the optional scale at the start. */
  lemma {:induction false} PrologueCalls(availableWidth: int, availableHeight: int, dial: Size, kind: Kind)
    ensures var scaled := NeedsScale(availableWidth, availableHeight, dial);
      Calls(ScalePrologue(availableWidth, availableHeight, dial), kind)
      == (if scaled && kind == SaveKind then [Save] else [])
       + (if scaled && kind == ScaleKind
          then [Scale(FrameScale(availableWidth, availableHeight, dial), Half(availableWidth), Half(availableHeight))]
          else [])
  {
    if NeedsScale(availableWidth, availableHeight, dial) {
      var scale := Scale(FrameScale(availableWidth, availableHeight, dial), Half(availableWidth), Half(availableHeight));
      assert [Save, scale] == [Save] + [scale];
      CallsConcat([Save], [scale], kind);
      OneCall(Save, kind);
      OneCall(scale, kind);
    }
  }

  /** The calls of one kind in the dial's part. */
  lemma {:induction false} DialCalls(changed: bool, x: int, y: int, dial: Size, kind: Kind)
    ensures Calls(DialOps(changed, x, y, dial), kind)
         == (if changed && kind == SetBoundsKind then [SetBounds(Dial, DialBounds(x, y, dial))] else [])
          + (if kind == DrawImageKind then [DrawImage(Dial)] else [])
  {
    var setDial := SetBounds(Dial, DialBounds(x, y, dial));
    OneCall(DrawImage(Dial), kind);
    if changed {
      CallsConcat([setDial], [DrawImage(Dial)], kind);
      OneCall(setDial, kind);
    } else {
      assert DialOps(changed, x, y, dial) == [DrawImage(Dial)];
    }
  }

  /** The calls of one kind in the closing restore. */
  lemma {:induction false} EpilogueCalls(availableWidth: int, availableHeight: int, dial: Size, kind: Kind)
    ensures Calls(ScaleEpilogue(availableWidth, availableHeight, dial), kind)
         == if NeedsScale(availableWidth, availableHeight, dial) && kind == RestoreKind then [Restore] else []
  {
    OneCall(Restore, kind);
  }

  /** The calls of one kind in the frame parts of a draw. */
  lemma {:induction false} FrameCallsOfKind(changed: bool, availableWidth: int, availableHeight: int, face: Face, kind: Kind)
    ensures var x, y := Half(availableWidth), Half(availableHeight);
      var scaled := NeedsScale(availableWidth, availableHeight, face.dial);
      && Calls(ScalePrologue(availableWidth, availableHeight, face.dial), kind)
         == (if scaled && kind == SaveKind then [Save] else [])
          + (if scaled && kind == ScaleKind then [Scale(FrameScale(availableWidth, availableHeight, face.dial), x, y)] else [])
      && Calls(DialOps(changed, x, y, face.dial), kind)
         == (if changed && kind == SetBoundsKind then [SetBounds(Dial, DialBounds(x, y, face.dial))] else [])
          + (if kind == DrawImageKind then [DrawImage(Dial)] else [])
      && Calls(ScaleEpilogue(availableWidth, availableHeight, face.dial), kind)
         == if scaled && kind == RestoreKind then [Restore] else []
  {
    PrologueCalls(availableWidth, availableHeight, face.dial, kind);
    DialCalls(changed, Half(availableWidth), Half(availableHeight), face.dial, kind);
    EpilogueCalls(availableWidth, availableHeight, face.dial, kind);
  }

  /** A scale call is made exactly when the view is smaller than the dial;
      it is then the only one, centred on (x, y). */
  lemma {:induction false} ScaleCallIffSmaller(changed: bool, availableWidth: int, availableHeight: int, face: Face, hour: real, minutes: real)
    ensures Calls(DrawOps(changed, availableWidth, availableHeight, face, hour, minutes), ScaleKind)
         == if NeedsScale(availableWidth, availableHeight, face.dial)
            then [Scale(FrameScale(availableWidth, availableHeight, face.dial), Half(availableWidth), Half(availableHeight))]
            else []
  {
    var x, y := Half(availableWidth), Half(availableHeight);
    DrawCallsSplit(changed, availableWidth, availableHeight, face, hour, minutes, ScaleKind);
    FrameCallsOfKind(changed, availableWidth, availableHeight, face, ScaleKind);
    HandCallsOfKind(changed, HourHand, HourRotation(hour), x, y, face.hourHand, ScaleKind);
    HandCallsOfKind(changed, MinuteHand, MinuteRotation(minutes), x, y, face.minuteHand, ScaleKind);
  }

  /** A draw makes exactly two rotations, both about the centre: the hour
      hand's and then the minute hand's, whatever the flag. */
  lemma {:induction false} RotationsOfDraw(changed: bool, availableWidth: int, availableHeight: int, face: Face, hour: real, minutes: real)
    ensures var x, y := Half(availableWidth), Half(availableHeight);
      Calls(DrawOps(changed, availableWidth, availableHeight, face, hour, minutes), RotateKind)
      == [Rotate(HourRotation(hour), x, y), Rotate(MinuteRotation(minutes), x, y)]
  {
    var x, y := Half(availableWidth), Half(availableHeight);
    DrawCallsSplit(changed, availableWidth, availableHeight, face, hour, minutes, RotateKind);
    FrameCallsOfKind(changed, availableWidth, availableHeight, face, RotateKind);
    HandCallsOfKind(changed, HourHand, HourRotation(hour), x, y, face.hourHand, RotateKind);
    HandCallsOfKind(changed, MinuteHand, MinuteRotation(minutes), x, y, face.minuteHand, RotateKind);
  }

  /** The calls of one kind in a hand's list. */
  lemma {:induction false} HandCallsOfKind(changed: bool, layer: Layer, degrees: real, x: int, y: int, hand: Size, kind: Kind)
    ensures Calls(HandOps(changed, layer, degrees, x, y, hand), kind)
         == (if kind == SaveKind then [Save] else [])
          + (if kind == RotateKind then [Rotate(degrees, x, y)] else [])
          + (if kind == SetBoundsKind && changed then [SetBounds(layer, HandBounds(x, y, hand))] else [])
          + (if kind == DrawImageKind then [DrawImage(layer)] else [])
          + (if kind == RestoreKind then [Restore] else [])
  {
    var head, tail := [Save, Rotate(degrees, x, y)], [DrawImage(layer), Restore];
    var mid := if changed then [SetBounds(layer, HandBounds(x, y, hand))] else [];
    CallsConcat(head + mid, tail, kind);
    CallsConcat(head, mid, kind);
    PairCalls(Save, Rotate(degrees, x, y), kind);
    PairCalls(DrawImage(layer), Restore, kind);
    var midCalls := if kind == SetBoundsKind && changed then [SetBounds(layer, HandBounds(x, y, hand))] else [];
    assert Calls(mid, kind) == midCalls by {
      if changed {
        OneCall(SetBounds(layer, HandBounds(x, y, hand)), kind);
      }
    }
  }

  /** The calls of one kind among two. */
  lemma PairCalls(a: Op, b: Op, kind: Kind)
    ensures Calls([a, b], kind) == (if KindOf(a) == kind then [a] else []) + (if KindOf(b) == kind then [b] else [])
  {
    assert [a, b] == [a] + [b];
    CallsConcat([a], [b], kind);
    OneCall(a, kind);
    OneCall(b, kind);
  }

  lemma OneCall(op: Op, kind: Kind)
    ensures Calls([op], kind) == if KindOf(op) == kind then [op] else []
  {
    assert [op][1..] == [];
  }

  /** Bounds are set during a draw exactly when the flag was set on entry:
      then the dial's and both hands', in that order. */
  lemma {:induction false} BoundsSetIffChanged(changed: bool, availableWidth: int, availableHeight: int, face: Face, hour: real, minutes: real)
    ensures var x, y := Half(availableWidth), Half(availableHeight);
      Calls(DrawOps(changed, availableWidth, availableHeight, face, hour, minutes), SetBoundsKind)
      == if changed
         then [SetBounds(Dial, DialBounds(x, y, face.dial)),
               SetBounds(HourHand, HandBounds(x, y, face.hourHand)),
               SetBounds(MinuteHand, HandBounds(x, y, face.minuteHand))]
         else []
  {
    var x, y := Half(availableWidth), Half(availableHeight);
    DrawCallsSplit(changed, availableWidth, availableHeight, face, hour, minutes, SetBoundsKind);
    FrameCallsOfKind(changed, availableWidth, availableHeight, face, SetBoundsKind);
    HandCallsOfKind(changed, HourHand, HourRotation(hour), x, y, face.hourHand, SetBoundsKind);
    HandCallsOfKind(changed, MinuteHand, MinuteRotation(minutes), x, y, face.minuteHand, SetBoundsKind);
  }

  /** When the frame is scaled its factor is below one, so the clock only
      ever shrinks; it is positive when the view has some width and height. */
  lemma FrameScaleShrinks(availableWidth: int, availableHeight: int, dial: Size)
    requires NeedsScale(availableWidth, availableHeight, dial)
    ensures FrameScale(availableWidth, availableHeight, dial) < 1.0
    ensures 0 < availableWidth && 0 < availableHeight ==> 0.0 < FrameScale(availableWidth, availableHeight, dial)
  {
    if availableWidth < dial.width {
      RatioBounds(availableWidth, dial.width);
    } else {
      RatioBounds(availableHeight, dial.height);
    }
    if 0 < availableWidth && 0 < availableHeight {
      RatioBounds(availableWidth, dial.width);
      RatioBounds(availableHeight, dial.height);
    }
  }

  /** A ratio to a positive side is below one exactly when the numerator is
      below the side, and positive when the numerator is. */
  lemma RatioBounds(n: int, side: pos)
    ensures n < side ==> n as real / side as real < 1.0
    ensures 0 < n ==> 0.0 < n as real / side as real
  {
  }

  /** A hand's bounds are centred on (x, y); each side is the intrinsic side
      rounded down to an even number. */
  lemma HandBoundsCentred(x: int, y: int, hand: Size)
    ensures var r := HandBounds(x, y, hand);
      && r.left + r.right == 2 * x && r.top + r.bottom == 2 * y
      && r.right - r.left == 2 * Half(hand.width) && 0 <= hand.width - (r.right - r.left) <= 1
      && r.bottom - r.top == 2 * Half(hand.height) && 0 <= hand.height - (r.bottom - r.top) <= 1
  {
  }

  /** The dial's bounds as written are centred horizontally; vertically the
      top edge is `h - h/2`, so they are centred on y exactly when the dial's
      height equals y; otherwise the dial is shifted by h - y. */
  lemma DialBoundsAsWritten(x: int, y: int, dial: Size)
    ensures var r := DialBounds(x, y, dial);
      && r.left + r.right == 2 * x
      && r.right - r.left == 2 * Half(dial.width)
      && r.top == dial.height - Half(dial.height)
      && r.bottom == y + Half(dial.height)
      && (r.top + r.bottom == 2 * y <==> dial.height == y)
      && r.top == HandBounds(x, y, dial).top + (dial.height - y)
  {
  }

  /** A 300 by 300 view with a 200 by 200 dial: the dial's rectangle runs
      from y = 100 to 250 instead of 50 to 250. */
  lemma DialOffCentreExample()
    ensures DialBounds(150, 150, Size(200, 200)) == Rect(50, 100, 250, 250)
    ensures HandBounds(150, 150, Size(200, 200)) == Rect(50, 50, 250, 250)
  {
  }
}
