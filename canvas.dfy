/** The drawing surface onDraw talks to, reduced to what the clock uses:
    a save/restore stack of transformation matrices, scale and rotate about
    a point, and drawables whose destination bounds are set with setBounds
    and that draw themselves under the current matrix. A draw is described
    by the list of calls it makes; Run replays such a list. */
module Canvas {
  import opened Geometry

  /** The clock's three images. */
  datatype Layer = Dial | HourHand | MinuteHand

  /** One call made while drawing. */
  datatype Op =
    | Save
    | Restore
    | Scale(factor: real, px: int, py: int)
    | Rotate(degrees: real, px: int, py: int)
    | SetBounds(layer: Layer, bounds: Rect)
    | DrawImage(layer: Layer)

  /** One elementary transformation applied to the canvas matrix. */
  datatype Transform =
    | Scaled(factor: real, px: int, py: int)
    | Rotated(degrees: real, px: int, py: int)

  /** The bounds each drawable currently holds. */
  datatype Bounds = Bounds(dial: Rect, hourHand: Rect, minuteHand: Rect)
  {
    function Get(layer: Layer): Rect
    {
      match layer
      case Dial => dial
      case HourHand => hourHand
      case MinuteHand => minuteHand
    }

    function Set(layer: Layer, r: Rect): (b: Bounds)
      ensures b.Get(layer) == r
      ensures forall other: Layer :: other != layer ==> b.Get(other) == Get(other)
    {
      match layer
      case Dial => this.(dial := r)
      case HourHand => this.(hourHand := r)
      case MinuteHand => this.(minuteHand := r)
    }
  }

  /** What a drawable put on the surface: which image, in which rectangle,
      under which matrix (the transformations in the order applied). */
  datatype Blit = Blit(layer: Layer, bounds: Rect, matrix: seq<Transform>)

  /** The surface's state: current matrix, save stack, drawable bounds and
      everything drawn so far. */
  datatype Scene = Scene(matrix: seq<Transform>, saved: seq<seq<Transform>>, bounds: Bounds, drawn: seq<Blit>)

  datatype Option<T> = None | Some(value: T)

  /** One call. A restore with nothing saved is an error (Android's canvas
      throws on an unbalanced restore). */
  function Step(sc: Scene, op: Op): Option<Scene>
  {
    match op
    case Save => Some(sc.(saved := sc.saved + [sc.matrix]))
    case Restore =>
      if sc.saved == [] then None
      else Some(sc.(matrix := sc.saved[|sc.saved| - 1], saved := sc.saved[..|sc.saved| - 1]))
    case Scale(f, px, py) => Some(sc.(matrix := sc.matrix + [Scaled(f, px, py)]))
    case Rotate(d, px, py) => Some(sc.(matrix := sc.matrix + [Rotated(d, px, py)]))
    case SetBounds(layer, r) => Some(sc.(bounds := sc.bounds.Set(layer, r)))
    case DrawImage(layer) => Some(sc.(drawn := sc.drawn + [Blit(layer, sc.bounds.Get(layer), sc.matrix)]))
  }

  /** Replay a list of calls, stopping at the first error. */
  function Run(sc: Scene, ops: seq<Op>): Option<Scene>
    decreases |ops|
  {
    if ops == [] then Some(sc)
    else
      match Step(sc, ops[0])
      case None => None
      case Some(next) => Run(next, ops[1..])
  }

  /** Continue a replay that may already have failed. */
  function Then(r: Option<Scene>, ops: seq<Op>): Option<Scene>
  {
    match r
    case None => None
    case Some(sc) => Run(sc, ops)
  }

  /** Replaying two lists one after the other is replaying their concatenation. */
  lemma {:induction false} RunConcat(sc: Scene, a: seq<Op>, b: seq<Op>)
    ensures Run(sc, a + b) == Then(Run(sc, a), b)
    decreases |a|
  {
    if a == [] {
      assert a + b == b;
    } else {
      assert (a + b)[0] == a[0];
      assert (a + b)[1..] == a[1..] + b;
      match Step(sc, a[0])
      case None =>
      case Some(next) => RunConcat(next, a[1..], b);
    }
  }

  /** Replaying a list that starts with one call. */
  lemma RunCons(sc: Scene, op: Op, rest: seq<Op>)
    ensures Run(sc, [op] + rest) == Then(Step(sc, op), rest)
  {
    assert ([op] + rest)[0] == op;
    assert ([op] + rest)[1..] == rest;
  }

  /** Replaying a single call is taking that step. */
  lemma RunOne(sc: Scene, op: Op)
    ensures Run(sc, [op]) == Step(sc, op)
  {
    RunCons(sc, op, []);
    assert [op] + [] == [op];
  }

  /** The number of Save calls minus the number of Restore calls. */
  function Balance(ops: seq<Op>): int
    decreases |ops|
  {
    if ops == [] then 0
    else (match ops[0] case Save => 1 case Restore => -1 case _ => 0) + Balance(ops[1..])
  }

  /** Balance is additive over concatenation. */
  lemma {:induction false} BalanceConcat(a: seq<Op>, b: seq<Op>)
    ensures Balance(a + b) == Balance(a) + Balance(b)
    decreases |a|
  {
    if a == [] {
      assert a + b == b;
    } else {
      assert (a + b)[0] == a[0];
      assert (a + b)[1..] == a[1..] + b;
      BalanceConcat(a[1..], b);
    }
  }

  /** No prefix restores more than was saved (on top of `depth` saves
      already on the stack): the stack depth never goes negative. */
  ghost predicate NeverUnderflows(ops: seq<Op>, depth: nat)
  {
    forall k :: 0 <= k <= |ops| ==> 0 <= depth + Balance(ops[..k])
  }

  /** A replay succeeds exactly when the save stack never underflows, and
      then the stack's depth changes by the list's balance. */
  lemma {:induction false} RunSucceedsIffNoUnderflow(sc: Scene, ops: seq<Op>)
    ensures Run(sc, ops).Some? <==> NeverUnderflows(ops, |sc.saved|)
    ensures Run(sc, ops).Some? ==> |Run(sc, ops).value.saved| == |sc.saved| + Balance(ops)
    decreases |ops|
  {
    if ops == [] {
      assert ops[..0] == [];
    } else {
      var tail := ops[1..];
      forall k | 0 <= k < |ops|
        ensures Balance(ops[..k + 1]) == Balance(ops[..1]) + Balance(tail[..k])
      {
        assert ops[..k + 1] == ops[..1] + tail[..k];
        BalanceConcat(ops[..1], tail[..k]);
      }
      assert ops[..1] == [ops[0]];
      assert ops[..0] == [];
      assert Balance([ops[0]]) == (match ops[0] case Save => 1 case Restore => -1 case _ => 0) by {
        assert [ops[0]][1..] == [];
      }
      match Step(sc, ops[0])
      case None =>
        assert ops[0] == Restore && sc.saved == [];
        assert |sc.saved| + Balance(ops[..1]) < 0;
        assert !NeverUnderflows(ops, |sc.saved|);
      case Some(next) =>
        RunSucceedsIffNoUnderflow(next, tail);
        assert |next.saved| == |sc.saved| + Balance(ops[..1]);
        if NeverUnderflows(ops, |sc.saved|) {
          forall k | 0 <= k <= |tail| ensures 0 <= |next.saved| + Balance(tail[..k]) {
            assert 0 <= |sc.saved| + Balance(ops[..k + 1]);
          }
        } else {
          var k :| 0 <= k <= |ops| && |sc.saved| + Balance(ops[..k]) < 0;
          assert k != 0;
          assert |next.saved| + Balance(tail[..k - 1]) < 0;
        }
      }
  }

  /** The kind of a call, without its arguments. */
  datatype Kind = SaveKind | RestoreKind | ScaleKind | RotateKind | SetBoundsKind | DrawImageKind

  function KindOf(op: Op): Kind
  {
    match op
    case Save => SaveKind
    case Restore => RestoreKind
    case Scale(_, _, _) => ScaleKind
    case Rotate(_, _, _) => RotateKind
    case SetBounds(_, _) => SetBoundsKind
    case DrawImage(_) => DrawImageKind
  }

  /** The calls of one kind, in order. */
  function Calls(ops: seq<Op>, kind: Kind): (r: seq<Op>)
    ensures forall i :: 0 <= i < |r| ==> KindOf(r[i]) == kind
    ensures |r| <= |ops|
    decreases |ops|
  {
    if ops == [] then []
    else (if KindOf(ops[0]) == kind then [ops[0]] else []) + Calls(ops[1..], kind)
  }

  /** Picking out calls distributes over concatenation. */
  lemma {:induction false} CallsConcat(a: seq<Op>, b: seq<Op>, kind: Kind)
    ensures Calls(a + b, kind) == Calls(a, kind) + Calls(b, kind)
    decreases |a|
  {
    if a == [] {
      assert a + b == b;
    } else {
      assert (a + b)[0] == a[0];
      assert (a + b)[1..] == a[1..] + b;
      CallsConcat(a[1..], b, kind);
    }
  }
}
