/**
 * Creates the cursors used on the scope screen for measuring times and levels
 * (Display.Views/Cursors/MeasurementCursorFactory.cs).
 */
module MeasurementCursors {
  import opened Optional
  import opened Rendering
  import opened Scene
  import opened Captions
  import opened Graphics
  import opened Bindings

  /** The converter of a time cursor: graphbase scale factor and trigger position. */
  const TimeConverter := Converter(GraphbaseScaleFactor, TriggerHorizontalPosition, ReferenceValue)

  /** The converter of a level cursor: channel Y scale factor and reference point Y. */
  const LevelConverter := Converter(ChannelYScaleFactor, ReferencePointY, ReferenceValue)

  /**
   * The value caption: the plain value text when no delta reference provider
   * is given, else the value with its delta to the delta reference.
   */
  function ValueTextProvider(baseUnitString: string, value: Quantity, hasDeltaReference: bool): (p: TextProvider)
    ensures p.ValueWithDeltaText? <==> hasDeltaReference
    ensures p.ValueText? <==> !hasDeltaReference
    ensures p.unit == baseUnitString && p.value == value
    ensures forall s :: Defined(p, s)
    ensures hasDeltaReference ==> p.deltaReference == DeltaReferenceValue
  {
    if hasDeltaReference then ValueWithDeltaText(baseUnitString, value, DeltaReferenceValue)
    else ValueText(baseUnitString, value)
  }

  /** The text a measurement caption shows at a moment. */
  lemma ValueCaptionText(fmt: Formatter, baseUnitString: string, value: Quantity, hasDeltaReference: bool, s: Snapshot)
    ensures var text := Text(ValueTextProvider(baseUnitString, value, hasDeltaReference), fmt, s);
            var basic := fmt(baseUnitString, s.values(value));
            if hasDeltaReference
            then text == basic + " / " + [DeltaSymbol] + " = " +
                         fmt(baseUnitString, s.values(value) - s.values(DeltaReferenceValue))
            else text == basic
  {
    if hasDeltaReference {
      var text := Text(ValueTextProvider(baseUnitString, value, hasDeltaReference), fmt, s);
      var basic := fmt(baseUnitString, s.values(value));
      var delta := fmt(baseUnitString, s.values(value) - s.values(DeltaReferenceValue));
      assert text == text[..|basic|] + text[|basic|..|text| - |delta|] + text[|text| - |delta|..];
    }
  }

  /** The layout of a vertical (X axis) measurement cursor. */
  ghost predicate IsXAxisMeasurementCursor(c: ScopeCursor, isReferenceCursor: bool, valueText: TextProvider, color: Color)
    reads c
  {
    && c.lines == ScopeCursorLines.X && c.selectableLines == ScopeCursorLines.X
    && c.lineWeight == Medium
    && c.markers == (if isReferenceCursor then XLeft else XRight)
    && c.color == color
    && c.captions == Some([ScopePositionCaption(valueText, if isReferenceCursor then Right else Left, Top,
                                                XPositionAndVerticalRangeEdge, true, color)])
    && c.highlightedLines == DefaultLines && c.xTicks.None? && c.yTicks.None?
  }

  /** The layout of a horizontal (Y axis) measurement cursor. */
  ghost predicate IsYAxisMeasurementCursor(c: ScopeCursor, isReferenceCursor: bool, valueText: TextProvider, color: Color)
    reads c
  {
    && c.lines == ScopeCursorLines.Y && c.selectableLines == ScopeCursorLines.Y
    && c.lineWeight == Medium
    && c.markers == (if isReferenceCursor then YLower else YUpper)
    && c.color == color
    && c.captions == Some([ScopePositionCaption(valueText, Right, if isReferenceCursor then Top else Bottom,
                                                YPositionAndHorizontalRangeEdge, true, color)])
    && c.highlightedLines == DefaultLines && c.xTicks.None? && c.yTicks.None?
  }

  method CreateXAxisMeasurementCursor(isReferenceCursor: bool, valueText: TextProvider, cursorColor: Color)
    returns (cursor: ScopeCursor)
    ensures fresh(cursor) && cursor.position == Origin
    ensures IsXAxisMeasurementCursor(cursor, isReferenceCursor, valueText, cursorColor)
  {
    var markers: ScopeCursorMarkers;
    var valueAlignment: ScopeHorizontalAlignment;
    if isReferenceCursor {
      markers := XLeft;
      valueAlignment := Right;
    } else {
      markers := XRight;
      valueAlignment := Left;
    }
    cursor := new ScopeCursor();
    cursor.SetLines(ScopeCursorLines.X);
    cursor.SetLineWeight(Medium);
    cursor.SetSelectableLines(ScopeCursorLines.X);
    cursor.SetMarkers(markers);
    cursor.SetColor(cursorColor);
    cursor.SetCaptions(Some([ScopePositionCaption(valueText, valueAlignment, Top,
                                                  XPositionAndVerticalRangeEdge, true, cursorColor)]));
  }

  method CreateYAxisMeasurementCursor(isReferenceCursor: bool, valueText: TextProvider, cursorColor: Color)
    returns (cursor: ScopeCursor)
    ensures fresh(cursor) && cursor.position == Origin
    ensures IsYAxisMeasurementCursor(cursor, isReferenceCursor, valueText, cursorColor)
  {
    var markers: ScopeCursorMarkers;
    var valueAlignment: ScopeVerticalAlignment;
    if isReferenceCursor {
      markers := YLower;
      valueAlignment := Top;
    } else {
      markers := YUpper;
      valueAlignment := Bottom;
    }
    cursor := new ScopeCursor();
    cursor.SetLines(ScopeCursorLines.Y);
    cursor.SetLineWeight(Medium);
    cursor.SetSelectableLines(ScopeCursorLines.Y);
    cursor.SetMarkers(markers);
    cursor.SetColor(cursorColor);
    cursor.SetCaptions(Some([ScopePositionCaption(valueText, Right, valueAlignment,
                                                  YPositionAndHorizontalRangeEdge, true, cursorColor)]));
  }

  /**
   * Builds the cursor for the axis, binds its coordinate to the converted
   * value (the first evaluation of the binding puts it on target) and
   * subscribes the invalidation handler to every influencing object.
   */
  method CreateMeasurementCursor(
    axis: Axis, isReferenceCursor: bool, value: Quantity, hasDeltaReference: bool,
    converter: Converter, baseUnitString: string, cursorColor: Color,
    influencingObjects: seq<Source>, snapshot: Snapshot, handlers: Handlers)
    returns (bound: BoundCursor, handlers': Handlers)
    ensures fresh(bound.cursor)
    ensures bound.bindings == [ConvertedBinding(axis, converter, value)]
    ensures handlers' == SubscribedAll(handlers, influencingObjects, InvalidateDerivedValue(converter))
    ensures bound.cursor.position == WithCoordinate(Origin, axis, Target(bound.bindings[0], snapshot))
    ensures Synced(bound.bindings[0], BindingState(snapshot, Coordinate(bound.cursor.position, axis)))
    ensures axis == Axis.X ==> IsXAxisMeasurementCursor(bound.cursor, isReferenceCursor,
                                 ValueTextProvider(baseUnitString, value, hasDeltaReference), cursorColor)
    ensures axis == Axis.Y ==> IsYAxisMeasurementCursor(bound.cursor, isReferenceCursor,
                                 ValueTextProvider(baseUnitString, value, hasDeltaReference), cursorColor)
  {
    var valueText := ValueTextProvider(baseUnitString, value, hasDeltaReference);
    var cursor: ScopeCursor;
    if axis == Axis.Y {
      cursor := CreateYAxisMeasurementCursor(isReferenceCursor, valueText, cursorColor);
    } else {
      cursor := CreateXAxisMeasurementCursor(isReferenceCursor, valueText, cursorColor);
    }
    var binding := ConvertedBinding(axis, converter, value);
    cursor.SetPosition(WithCoordinate(cursor.position, axis, Target(binding, snapshot)));
    handlers' := SubscribeAll(handlers, influencingObjects, InvalidateDerivedValue(converter));
    bound := BoundCursor(cursor, [binding]);
  }

  /** A time cursor: X axis, graphbase scale factor, trigger horizontal position. */
  method CreateTimeMeasurementCursor(
    graphbase: GraphbaseView, isReferenceCursor: bool, hasDeltaReference: bool,
    snapshot: Snapshot, handlers: Handlers)
    returns (bound: BoundCursor, handlers': Handlers)
    ensures fresh(bound.cursor)
    ensures bound.bindings ==
            [ConvertedBinding(Axis.X, Converter(GraphbaseScaleFactor, TriggerHorizontalPosition, ReferenceValue),
                              CursorValue)]
    ensures handlers' == SubscribedAll(handlers, [Graphbase, Trigger], InvalidateDerivedValue(TimeConverter))
    ensures Synced(bound.bindings[0], BindingState(snapshot, bound.cursor.position.x))
    ensures bound.cursor.position.y == 0.0
    ensures IsXAxisMeasurementCursor(bound.cursor, isReferenceCursor,
              ValueTextProvider(graphbase.baseUnitString, CursorValue, hasDeltaReference), graphbase.color)
  {
    bound, handlers' := CreateMeasurementCursor(
      Axis.X, isReferenceCursor, CursorValue, hasDeltaReference, TimeConverter,
      graphbase.baseUnitString, graphbase.color, [Graphbase, Trigger], snapshot, handlers);
  }

  /** A level cursor: Y axis, channel Y scale factor, reference point Y. */
  method CreateLevelMeasurementCursor(
    channel: ChannelView, isReferenceCursor: bool, hasDeltaReference: bool,
    snapshot: Snapshot, handlers: Handlers)
    returns (bound: BoundCursor, handlers': Handlers)
    ensures fresh(bound.cursor)
    ensures bound.bindings ==
            [ConvertedBinding(Axis.Y, Converter(ChannelYScaleFactor, ReferencePointY, ReferenceValue), CursorValue)]
    ensures handlers' == SubscribedAll(handlers, [Channel, ReferencePoint], InvalidateDerivedValue(LevelConverter))
    ensures Synced(bound.bindings[0], BindingState(snapshot, bound.cursor.position.y))
    ensures bound.cursor.position.x == 0.0
    ensures IsYAxisMeasurementCursor(bound.cursor, isReferenceCursor,
              ValueTextProvider(channel.baseUnitString, CursorValue, hasDeltaReference), channel.color)
  {
    bound, handlers' := CreateMeasurementCursor(
      Axis.Y, isReferenceCursor, CursorValue, hasDeltaReference, LevelConverter,
      channel.baseUnitString, channel.color, [Channel, ReferencePoint], snapshot, handlers);
  }

  /**
   * A time cursor's coordinate is again the converted cursor value after any
   * sequence of changes and moves that leaves the reference value alone.
   */
  lemma TimeCursorStaysSynced(h: Handlers, st: BindingState, events: seq<Event>)
    requires Synced(ConvertedBinding(Axis.X, TimeConverter, CursorValue), st)
    requires forall i :: 0 <= i < |events| ==> !(events[i].Changed? && events[i].quantity == ReferenceValue)
    ensures var b := ConvertedBinding(Axis.X, TimeConverter, CursorValue);
            var h' := SubscribedAll(h, [Graphbase, Trigger], InvalidateDerivedValue(TimeConverter));
            Replay(b, h', st, events).Some? ==> Synced(b, Replay(b, h', st, events).value)
  {
    var b := ConvertedBinding(Axis.X, TimeConverter, CursorValue);
    var h' := SubscribedAll(h, [Graphbase, Trigger], InvalidateDerivedValue(TimeConverter));
    forall i | 0 <= i < |events| ensures Tracked(b, h', events[i]) {
      FollowsAllButReferenceValue(b, h, [Graphbase, Trigger], events[i]);
    }
    ReplayKeepsSynced(b, h', st, events);
  }

  /** The same for a level cursor. */
  lemma LevelCursorStaysSynced(h: Handlers, st: BindingState, events: seq<Event>)
    requires Synced(ConvertedBinding(Axis.Y, LevelConverter, CursorValue), st)
    requires forall i :: 0 <= i < |events| ==> !(events[i].Changed? && events[i].quantity == ReferenceValue)
    ensures var b := ConvertedBinding(Axis.Y, LevelConverter, CursorValue);
            var h' := SubscribedAll(h, [Channel, ReferencePoint], InvalidateDerivedValue(LevelConverter));
            Replay(b, h', st, events).Some? ==> Synced(b, Replay(b, h', st, events).value)
  {
    var b := ConvertedBinding(Axis.Y, LevelConverter, CursorValue);
    var h' := SubscribedAll(h, [Channel, ReferencePoint], InvalidateDerivedValue(LevelConverter));
    forall i | 0 <= i < |events| ensures Tracked(b, h', events[i]) {
      FollowsAllButReferenceValue(b, h, [Channel, ReferencePoint], events[i]);
    }
    ReplayKeepsSynced(b, h', st, events);
  }

  /**
   * A time cursor left stale by a reference-value change is put back on
   * target by the next notification of the graphbase or its trigger, for
   * instance one for BaseUnitString, Color or State.
   */
  lemma TimeCursorResyncedByNotification(h: Handlers, st: BindingState, v: real, o: Source,
                                         triggerState: TriggerState, baseUnitString: string)
    requires Synced(ConvertedBinding(Axis.X, TimeConverter, CursorValue), st)
    requires st.snapshot.values(GraphbaseScaleFactor) != 0.0 && v != st.snapshot.values(ReferenceValue)
    requires o == Graphbase || o == Trigger
    ensures var b := ConvertedBinding(Axis.X, TimeConverter, CursorValue);
            var h' := SubscribedAll(h, [Graphbase, Trigger], InvalidateDerivedValue(TimeConverter));
            var r := Replay(b, h', st, [Changed(ReferenceValue, v), Notified(o, triggerState, baseUnitString)]);
            !Synced(b, Step(b, h', st, Changed(ReferenceValue, v)).value) && r.Some? && Synced(b, r.value)
  {
    var b := ConvertedBinding(Axis.X, TimeConverter, CursorValue);
    var x := InvalidateDerivedValue(TimeConverter);
    var h' := SubscribedAll(h, [Graphbase, Trigger], x);
    SubscribedAllEffect(h, [Graphbase, Trigger], x, o);
    NotificationRestoresStaleCursor(b, h', st, v, o, triggerState, baseUnitString);
  }
}
