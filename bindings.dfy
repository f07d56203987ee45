/**
 * The effect of the cursor bindings. A factory binds one coordinate of the
 * cursor's position to a domain value, through a converter or directly, and
 * subscribes a handler to each influencing object that invalidates the
 * converter's derived value. The binding library itself is not modelled: its
 * effect is that the bound coordinate is recomputed from the current values
 * whenever the bound value or an influencing object changes, and that a move
 * of the cursor is pushed back to the bound value.
 */
module Bindings {
  import opened Optional
  import opened Scene
  import opened Conversion
  import Rendering
  import Graphics

  /** Which coordinate of the cursor's position a binding drives. */
  datatype Axis = X | Y

  function Coordinate(p: Rendering.Point, axis: Axis): (c: real) {
    if axis == X then p.x else p.y
  }

  /** The point with one coordinate replaced. */
  function WithCoordinate(p: Rendering.Point, axis: Axis, v: real): (r: Rendering.Point)
    ensures Coordinate(r, axis) == v
    ensures axis == X ==> r.y == p.y
    ensures axis == Y ==> r.x == p.x
  {
    if axis == X then p.(x := v) else p.(y := v)
  }

  /** A value converter: the quantities its scale, reference-position and reference-value providers read. */
  datatype Converter = Converter(scale: Quantity, referencePosition: Quantity, referenceValue: Quantity)

  /** The converter's parameters as its closures read them at this moment. */
  function ParametersAt(c: Converter, s: Snapshot): (p: Parameters)
    ensures p.scale == s.values(c.scale)
  {
    Parameters(s.values(c.referenceValue), s.values(c.scale), s.values(c.referencePosition))
  }

  /**
   * `ConvertedBinding`: cursor.Position.<axis> == converter.DerivedValue and
   * converter.OriginalValue == value. `DirectBinding`: cursor.Position.<axis> == value.
   */
  datatype Binding =
    | ConvertedBinding(axis: Axis, converter: Converter, value: Quantity)
    | DirectBinding(axis: Axis, value: Quantity)

  /** The bound value is none of the converter's parameters. */
  predicate WellFormed(b: Binding) {
    b.ConvertedBinding? ==>
      b.value != b.converter.scale && b.value != b.converter.referencePosition &&
      b.value != b.converter.referenceValue
  }

  /** The coordinate the binding asks for at this moment. */
  function Target(b: Binding, s: Snapshot): (t: real) {
    match b
    case ConvertedBinding(_, c, value) => Forward(ParametersAt(c, s), s.values(value))
    case DirectBinding(_, value) => s.values(value)
  }

  /** The quantities the target depends on. */
  predicate Reads(b: Binding, q: Quantity) {
    q == b.value ||
    (b.ConvertedBinding? &&
     (q == b.converter.scale || q == b.converter.referencePosition || q == b.converter.referenceValue))
  }

  /** A change to a quantity the binding does not read leaves its target alone. */
  lemma TargetIgnoresUnread(b: Binding, s: Snapshot, q: Quantity, v: real)
    requires !Reads(b, q)
    ensures Target(b, Updated(s, q, v)) == Target(b, s)
  {
    var t := Updated(s, q, v);
    assert t.values(b.value) == s.values(b.value);
    if b.ConvertedBinding? {
      assert ParametersAt(b.converter, t) == ParametersAt(b.converter, s);
    }
  }

  // ----- PropertyChanged subscriptions -----

  /**
   * The handler a factory subscribes: it invalidates the converter's derived
   * value. A handler is identified by the quantities its converter reads, so
   * two cursors of the same kind hold equal handlers here, whereas in the
   * source each cursor has a converter object, and a delegate, of its own.
   */
  datatype Handler = InvalidateDerivedValue(converter: Converter)

  /** The PropertyChanged invocation list of each observable object. */
  type Handlers = map<Source, seq<Handler>>

  function HandlersOf(h: Handlers, o: Source): (l: seq<Handler>) {
    if o in h then h[o] else []
  }

  /** `o.PropertyChanged += x`: appends to that object's list only. */
  function Subscribe(h: Handlers, o: Source, x: Handler): (r: Handlers)
    ensures HandlersOf(r, o) == HandlersOf(h, o) + [x]
    ensures forall p :: p != o ==> HandlersOf(r, p) == HandlersOf(h, p)
  {
    h[o := HandlersOf(h, o) + [x]]
  }

  /** The lists after subscribing `x` to each object of `objects` in turn. */
  function SubscribedAll(h: Handlers, objects: seq<Source>, x: Handler): (r: Handlers)
    decreases |objects|
  {
    if objects == [] then h
    else Subscribe(SubscribedAll(h, objects[..|objects| - 1], x), objects[|objects| - 1], x)
  }

  /**
   * Subscribing keeps every earlier handler, reaches each listed object and
   * touches no other.
   */
  lemma {:induction false} SubscribedAllEffect(h: Handlers, objects: seq<Source>, x: Handler, o: Source)
    ensures HandlersOf(h, o) <= HandlersOf(SubscribedAll(h, objects, x), o)
    ensures o in objects ==> x in HandlersOf(SubscribedAll(h, objects, x), o)
    ensures o !in objects ==> HandlersOf(SubscribedAll(h, objects, x), o) == HandlersOf(h, o)
  {
    if objects != [] {
      var front := objects[..|objects| - 1];
      var last := objects[|objects| - 1];
      assert objects == front + [last];
      SubscribedAllEffect(h, front, x, o);
      var before := SubscribedAll(h, front, x);
      if o == last {
        assert HandlersOf(SubscribedAll(h, objects, x), o) == HandlersOf(before, o) + [x];
      } else {
        assert o in objects ==> o in front;
      }
    }
  }

  /** `influencingObjects.ForEachDo(o => o.PropertyChanged += handler)`. */
  method SubscribeAll(h: Handlers, objects: seq<Source>, x: Handler) returns (r: Handlers)
    ensures r == SubscribedAll(h, objects, x)
  {
    r := h;
    for i := 0 to |objects|
      invariant r == SubscribedAll(h, objects[..i], x)
    {
      assert objects[..i + 1][..i] == objects[..i];
      r := Subscribe(r, objects[i], x);
    }
    assert objects[..|objects|] == objects;
  }

  // ----- Propagation -----

  /**
   * Whether a change to the quantity makes the binding recompute: the binding
   * watches its own bound value, and a converter's derived value is
   * invalidated by any change of an object that holds its handler.
   */
  predicate Reacts(b: Binding, h: Handlers, q: Quantity): (r: bool)
    ensures q == b.value ==> r
    ensures b.DirectBinding? ==> (r <==> q == b.value)
    ensures IsProviderResult(q) ==> (r <==> q == b.value)
    ensures r && q != b.value ==> b.ConvertedBinding? && InvalidateDerivedValue(b.converter) in HandlersOf(h, Owner(q).value)
  {
    q == b.value ||
    (b.ConvertedBinding? && Owner(q).Some? &&
     InvalidateDerivedValue(b.converter) in HandlersOf(h, Owner(q).value))
  }

  /** The values of the moment and the bound coordinate of the cursor's position. */
  datatype BindingState = BindingState(snapshot: Snapshot, position: real)

  /** The binding's intent: the coordinate is the converted current value. */
  predicate Synced(b: Binding, st: BindingState) {
    st.position == Target(b, st.snapshot)
  }

  /**
   * `Notified`: an object raises PropertyChanged for a property no binding
   * reads (a base unit, a colour, the trigger state); it carries the trigger
   * state and the graphbase base unit as they are afterwards, and only the
   * trigger can change the state and only the graphbase the unit. The handler
   * ignores which property changed, so the notification still invalidates
   * the derived value of every converter whose handler the object holds.
   */
  datatype Event =
    | Changed(quantity: Quantity, newValue: real)   // a viewmodel property or provider result changes
    | Dragged(coordinate: real)                     // the cursor's bound coordinate is moved
    | Notified(source: Source, triggerState: TriggerState, graphbaseBaseUnitString: string)

  /**
   * One change and its propagation. `None`: a move through a converter whose
   * scale is zero, where the inverse divides by zero (NaN in the source).
   * A change updates the snapshot and is recomputed only when the binding
   * reacts; a move puts the cursor where it was moved and, for a well-formed
   * binding, the bound value back onto it.
   */
  function Step(b: Binding, h: Handlers, st: BindingState, e: Event): (r: Option<BindingState>)
    ensures r.None? <==> e.Dragged? && b.ConvertedBinding? && st.snapshot.values(b.converter.scale) == 0.0
    ensures e.Changed? ==> r.Some? && r.value.snapshot == Updated(st.snapshot, e.quantity, e.newValue)
    ensures e.Changed? && Reacts(b, h, e.quantity) ==> Synced(b, r.value)
    ensures e.Dragged? && r.Some? ==> r.value.position == e.coordinate
    ensures e.Dragged? && r.Some? && WellFormed(b) ==> Synced(b, r.value)
    ensures e.Notified? ==> r.Some? && r.value.snapshot.values == st.snapshot.values
    ensures e.Notified? && e.source != Trigger ==> r.value.snapshot.triggerState == st.snapshot.triggerState
    ensures e.Notified? && e.source != Graphbase ==>
              r.value.snapshot.graphbaseBaseUnitString == st.snapshot.graphbaseBaseUnitString
    ensures e.Notified? && b.ConvertedBinding? && InvalidateDerivedValue(b.converter) in HandlersOf(h, e.source) ==>
              Synced(b, r.value)
  {
    match e
    case Changed(q, v) =>
      var s := Updated(st.snapshot, q, v);
      Some(BindingState(s, if Reacts(b, h, q) then Target(b, s) else st.position))
    case Dragged(d) =>
      (match b
       case DirectBinding(_, value) => Some(BindingState(Updated(st.snapshot, value, d), d))
       case ConvertedBinding(_, c, value) =>
         var p := ParametersAt(c, st.snapshot);
         if p.scale == 0.0 then None
         else
           var s := Updated(st.snapshot, value, Inverse(p, d));
           assert WellFormed(b) ==> ParametersAt(c, s) == p;
           Some(BindingState(s, d)))
    case Notified(o, triggerState, baseUnitString) =>
      var s := st.snapshot.(
        triggerState := if o == Trigger then triggerState else st.snapshot.triggerState,
        graphbaseBaseUnitString := if o == Graphbase then baseUnitString else st.snapshot.graphbaseBaseUnitString);
      var invalidated := b.ConvertedBinding? && InvalidateDerivedValue(b.converter) in HandlersOf(h, o);
      Some(BindingState(s, if invalidated then Target(b, s) else st.position))
  }

  /** A sequence of changes, each fully propagated before the next. */
  function Replay(b: Binding, h: Handlers, st: BindingState, events: seq<Event>): (r: Option<BindingState>)
    decreases |events|
  {
    if events == [] then Some(st)
    else
      match Step(b, h, st, events[0])
      case None => None
      case Some(next) => Replay(b, h, next, events[1..])
  }

  /**
   * An event the binding keeps up with: a move, a notification for a property
   * it does not read, a watched change, or a change of a value it does not read.
   */
  predicate Tracked(b: Binding, h: Handlers, e: Event) {
    !e.Changed? || Reacts(b, h, e.quantity) || !Reads(b, e.quantity)
  }

  /** Every tracked event re-establishes the binding's intent. */
  lemma StepKeepsSynced(b: Binding, h: Handlers, st: BindingState, e: Event)
    requires WellFormed(b) && Synced(b, st) && Tracked(b, h, e)
    ensures Step(b, h, st, e).Some? ==> Synced(b, Step(b, h, st, e).value)
  {
    match e
    case Changed(q, v) =>
      if !Reacts(b, h, q) {
        TargetIgnoresUnread(b, st.snapshot, q, v);
      }
    case Dragged(d) =>
      if b.ConvertedBinding? && st.snapshot.values(b.converter.scale) != 0.0 {
        var p := ParametersAt(b.converter, st.snapshot);
        var s := Updated(st.snapshot, b.value, Inverse(p, d));
        assert ParametersAt(b.converter, s) == p;
        ForwardOfInverse(p, d);
      }
    case Notified(_, _, _) =>
  }

  /** After any sequence of tracked events the coordinate again equals the converted value. */
  lemma {:induction false} ReplayKeepsSynced(b: Binding, h: Handlers, st: BindingState, events: seq<Event>)
    requires WellFormed(b) && Synced(b, st)
    requires forall i :: 0 <= i < |events| ==> Tracked(b, h, events[i])
    ensures Replay(b, h, st, events).Some? ==> Synced(b, Replay(b, h, st, events).value)
    decreases |events|
  {
    if events != [] {
      StepKeepsSynced(b, h, st, events[0]);
      var next := Step(b, h, st, events[0]);
      if next.Some? {
        assert forall i :: 0 <= i < |events[1..]| ==> events[1..][i] == events[i + 1];
        ReplayKeepsSynced(b, h, next.value, events[1..]);
      }
    }
  }

  /** A change the binding neither reads nor watches leaves the cursor where it is. */
  lemma UnwatchedChangeIsInvisible(b: Binding, h: Handlers, st: BindingState, q: Quantity, v: real)
    requires !Reacts(b, h, q)
    ensures Step(b, h, st, Changed(q, v)).Some?
    ensures Step(b, h, st, Changed(q, v)).value.position == st.position
  {
  }

  /**
   * The reference value is read by every recompute, but nothing notifies a
   * binding when it changes: with a non-zero scale, a new reference value
   * leaves the cursor off its target.
   */
  lemma ReferenceValueChangeLeavesCursorStale(b: Binding, h: Handlers, st: BindingState, v: real)
    requires b.ConvertedBinding? && WellFormed(b) && b.converter.referenceValue == ReferenceValue
    requires b.converter.scale != ReferenceValue && b.converter.referencePosition != ReferenceValue
    requires Synced(b, st) && st.snapshot.values(b.converter.scale) != 0.0
    requires v != st.snapshot.values(ReferenceValue)
    ensures Step(b, h, st, Changed(ReferenceValue, v)).Some?
    ensures !Synced(b, Step(b, h, st, Changed(ReferenceValue, v)).value)
  {
    var next := Step(b, h, st, Changed(ReferenceValue, v)).value;
    assert !Reacts(b, h, ReferenceValue);
    assert next.position == st.position;
    var p := ParametersAt(b.converter, st.snapshot);
    var q := ParametersAt(b.converter, next.snapshot);
    assert q == p.(referenceValue := v);
    var value := next.snapshot.values(b.value);
    assert value == st.snapshot.values(b.value);
    assert Forward(q, value) - Forward(p, value) == (p.referenceValue - v) * p.scale;
  }

  /**
   * A stale cursor is brought back on target by the next notification of an
   * object holding its handler, whichever property that notification is for.
   */
  lemma NotificationRestoresStaleCursor(b: Binding, h: Handlers, st: BindingState, v: real,
                                        o: Source, triggerState: TriggerState, baseUnitString: string)
    requires b.ConvertedBinding? && WellFormed(b) && b.converter.referenceValue == ReferenceValue
    requires b.converter.scale != ReferenceValue && b.converter.referencePosition != ReferenceValue
    requires Synced(b, st) && st.snapshot.values(b.converter.scale) != 0.0
    requires v != st.snapshot.values(ReferenceValue)
    requires InvalidateDerivedValue(b.converter) in HandlersOf(h, o)
    ensures var stale := Step(b, h, st, Changed(ReferenceValue, v));
            stale.Some? && !Synced(b, stale.value)
    ensures var r := Replay(b, h, st, [Changed(ReferenceValue, v), Notified(o, triggerState, baseUnitString)]);
            r.Some? && Synced(b, r.value)
  {
    ReferenceValueChangeLeavesCursorStale(b, h, st, v);
    var events := [Changed(ReferenceValue, v), Notified(o, triggerState, baseUnitString)];
    var stale := Step(b, h, st, events[0]).value;
    assert events[1..] == [events[1]];
    assert Replay(b, h, stale, events[1..]) == Step(b, h, stale, events[1]);
  }

  /**
   * A converted binding whose handler sits on the objects owning its scale
   * and reference position follows every change except one of the reference
   * value.
   */
  lemma FollowsAllButReferenceValue(b: Binding, h: Handlers, influencingObjects: seq<Source>, e: Event)
    requires b.ConvertedBinding? && b.converter.referenceValue == ReferenceValue
    requires Owner(b.converter.scale).Some? && Owner(b.converter.scale).value in influencingObjects
    requires Owner(b.converter.referencePosition).Some?
    requires Owner(b.converter.referencePosition).value in influencingObjects
    requires !(e.Changed? && e.quantity == ReferenceValue)
    ensures Tracked(b, SubscribedAll(h, influencingObjects, InvalidateDerivedValue(b.converter)), e)
  {
    var x := InvalidateDerivedValue(b.converter);
    if e.Changed? {
      var q := e.quantity;
      if q == b.converter.scale || q == b.converter.referencePosition {
        SubscribedAllEffect(h, influencingObjects, x, Owner(q).value);
      }
    }
  }

  /** What a factory returns: the cursor and the bindings that keep it in place. */
  datatype BoundCursor = BoundCursor(cursor: Graphics.ScopeCursor, bindings: seq<Binding>)
}
