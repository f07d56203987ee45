/**
 * Creates the cursors used on the scope screen for trigger-related values
 * (Display.Views/Cursors/TriggerCursorFactory.cs).
 */
module TriggerCursors {
  import opened Optional
  import opened Rendering
  import opened Scene
  import opened Captions
  import opened Graphics
  import opened Bindings

  /** The converter of a trigger criteria cursor: channel Y scale factor and reference point Y. */
  const CriteriaConverter := Converter(ChannelYScaleFactor, ReferencePointY, ReferenceValue)

  /**
   * The layout of a trigger criteria cursor showing `value`; the mode glyph
   * was fixed when it was built.
   */
  ghost predicate IsTriggerCriteriaCursor(c: ScopeCursor, modeSymbol: char, value: Quantity, baseUnitString: string,
                                          color: Color)
    reads c
  {
    var triggerText := FixedText(TriggerCaption(modeSymbol));
    && c.lines == ScopeCursorLines.Y && c.selectableLines == ScopeCursorLines.Y
    && c.lineWeight == Low && c.markers == YFull && c.color == color
    && c.captions == Some([
         ScopePositionCaption(triggerText, Left, Bottom, YPositionAndHorizontalRangeEdge, true, color),
         ScopePositionCaption(triggerText, Right, Bottom, YPositionAndHorizontalRangeEdge, true, color),
         ScopePositionCaption(ValueText(baseUnitString, value), Right, Top,
                              YPositionAndHorizontalRangeEdge, true, color)])
    && c.highlightedLines == DefaultLines && c.xTicks.None? && c.yTicks.None?
  }

  /**
   * The layout of a trigger point cursor. Its position text carries no unit
   * of its own: it takes the graphbase's base unit at every redraw.
   */
  ghost predicate IsTriggerPointCursor(c: ScopeCursor, color: Color)
    reads c
  {
    && c.lines == ScopeCursorLines.X && c.selectableLines == ScopeCursorLines.X
    && c.lineWeight == Low && c.markers == XFull && c.color == color
    && c.captions == Some([
         ScopePositionCaption(TriggerStateText, Left, Top, XPositionAndVerticalRangeEdge, true, color),
         ScopePositionCaption(TriggerStateText, Left, Bottom, XPositionAndVerticalRangeEdge, true, color),
         ScopePositionCaption(QuotientText(TriggerHorizontalPosition, GraphbaseScaleFactor),
                              Right, Top, XPositionAndVerticalRangeEdge, true, color)])
    && c.highlightedLines == DefaultLines && c.xTicks.None? && c.yTicks.None?
  }

  /** Picks the mode glyph once, then builds the criteria cursor bound to the trigger level. */
  method CreateTriggerCriteriaCursor(trigger: LevelTriggerView, channel: ChannelView,
                                     snapshot: Snapshot, handlers: Handlers)
    returns (bound: BoundCursor, handlers': Handlers)
    ensures fresh(bound.cursor)
    ensures bound.bindings ==
            [ConvertedBinding(Axis.Y, Converter(ChannelYScaleFactor, ReferencePointY, ReferenceValue), TriggerLevel)]
    ensures handlers' == SubscribedAll(handlers, [Channel, ReferencePoint], InvalidateDerivedValue(CriteriaConverter))
    ensures Synced(bound.bindings[0], BindingState(snapshot, bound.cursor.position.y))
    ensures bound.cursor.position.x == 0.0
    ensures IsTriggerCriteriaCursor(bound.cursor, ModeSymbol(trigger.mode), TriggerLevel, trigger.channelBaseUnitString,
                                    channel.color)
  {
    var triggerModeSymbol := ModeSymbol(trigger.mode);
    bound, handlers' := CreateCriteriaCursor(
      triggerModeSymbol, TriggerLevel, CriteriaConverter, trigger.channelBaseUnitString, channel.color,
      [Channel, ReferencePoint], snapshot, handlers);
  }

  /** The overload that takes the glyph, the bound value and the converter's providers. */
  method CreateCriteriaCursor(
    triggerModeSymbol: char, value: Quantity, converter: Converter, baseUnitString: string, levelColor: Color,
    influencingObjects: seq<Source>, snapshot: Snapshot, handlers: Handlers)
    returns (bound: BoundCursor, handlers': Handlers)
    ensures fresh(bound.cursor)
    ensures bound.bindings == [ConvertedBinding(Axis.Y, converter, value)]
    ensures handlers' == SubscribedAll(handlers, influencingObjects, InvalidateDerivedValue(converter))
    ensures bound.cursor.position == Point(0.0, Target(bound.bindings[0], snapshot))
    ensures IsTriggerCriteriaCursor(bound.cursor, triggerModeSymbol, value, baseUnitString, levelColor)
  {
    var triggerCaption := TriggerCaption(triggerModeSymbol);
    var levelText := ValueText(baseUnitString, value);
    var cursor := new ScopeCursor();
    cursor.SetLines(ScopeCursorLines.Y);
    cursor.SetLineWeight(Low);
    cursor.SetSelectableLines(ScopeCursorLines.Y);
    cursor.SetMarkers(YFull);
    cursor.SetColor(levelColor);
    cursor.SetCaptions(Some([
      ScopePositionCaption(FixedText(triggerCaption), Left, Bottom, YPositionAndHorizontalRangeEdge, true, levelColor),
      ScopePositionCaption(FixedText(triggerCaption), Right, Bottom, YPositionAndHorizontalRangeEdge, true, levelColor),
      ScopePositionCaption(levelText, Right, Top, YPositionAndHorizontalRangeEdge, true, levelColor)]));
    var binding := ConvertedBinding(Axis.Y, converter, value);
    cursor.SetPosition(WithCoordinate(cursor.position, Axis.Y, Target(binding, snapshot)));
    handlers' := SubscribeAll(handlers, influencingObjects, InvalidateDerivedValue(converter));
    bound := BoundCursor(cursor, [binding]);
  }

  /** The trigger point cursor: its X coordinate is the trigger's horizontal position itself. */
  method CreateTriggerPointCursor(graphbase: GraphbaseView, snapshot: Snapshot) returns (bound: BoundCursor)
    ensures fresh(bound.cursor)
    ensures bound.bindings == [DirectBinding(Axis.X, TriggerHorizontalPosition)]
    ensures bound.cursor.position == Point(snapshot.values(TriggerHorizontalPosition), 0.0)
    ensures IsTriggerPointCursor(bound.cursor, graphbase.color)
  {
    var stateText := TriggerStateText;
    var positionText := QuotientText(TriggerHorizontalPosition, GraphbaseScaleFactor);
    var markerColor := graphbase.color;
    var cursor := new ScopeCursor();
    cursor.SetLines(ScopeCursorLines.X);
    cursor.SetLineWeight(Low);
    cursor.SetSelectableLines(ScopeCursorLines.X);
    cursor.SetMarkers(XFull);
    cursor.SetColor(markerColor);
    cursor.SetCaptions(Some([
      ScopePositionCaption(stateText, Left, Top, XPositionAndVerticalRangeEdge, true, markerColor),
      ScopePositionCaption(stateText, Left, Bottom, XPositionAndVerticalRangeEdge, true, markerColor),
      ScopePositionCaption(positionText, Right, Top, XPositionAndVerticalRangeEdge, true, markerColor)]));
    var binding := DirectBinding(Axis.X, TriggerHorizontalPosition);
    cursor.SetPosition(WithCoordinate(cursor.position, Axis.X, Target(binding, snapshot)));
    bound := BoundCursor(cursor, [binding]);
  }

  /** The criteria cursor's captions as a redraw shows them. */
  lemma CriteriaCaptionTexts(fmt: Formatter, mode: Timebase.LevelTriggerMode, baseUnitString: string, s: Snapshot)
    ensures Text(FixedText(TriggerCaption(ModeSymbol(mode))), fmt, s) == [TriggerSymbol, ModeSymbol(mode)]
    ensures Text(ValueText(baseUnitString, TriggerLevel), fmt, s) == fmt(baseUnitString, s.values(TriggerLevel))
  {
  }

  /**
   * The trigger point cursor's captions as a redraw shows them. The position
   * text is in the graphbase's base unit of the moment it is drawn, so a new
   * base unit shows at the next redraw.
   */
  lemma TriggerPointCaptionTexts(fmt: Formatter, s: Snapshot, newBaseUnitString: string)
    requires s.values(GraphbaseScaleFactor) != 0.0
    ensures Text(TriggerStateText, fmt, s) == TriggerStateCaption(s.triggerState)
    ensures Text(QuotientText(TriggerHorizontalPosition, GraphbaseScaleFactor), fmt, s) ==
            fmt(s.graphbaseBaseUnitString, s.values(TriggerHorizontalPosition) / s.values(GraphbaseScaleFactor))
    ensures Text(QuotientText(TriggerHorizontalPosition, GraphbaseScaleFactor), fmt,
                 s.(graphbaseBaseUnitString := newBaseUnitString)) ==
            fmt(newBaseUnitString, s.values(TriggerHorizontalPosition) / s.values(GraphbaseScaleFactor))
  {
  }

  /**
   * A criteria cursor's coordinate is again the converted trigger level after
   * any sequence of changes and moves that leaves the reference value alone.
   */
  lemma CriteriaCursorStaysSynced(h: Handlers, st: BindingState, events: seq<Event>)
    requires Synced(ConvertedBinding(Axis.Y, CriteriaConverter, TriggerLevel), st)
    requires forall i :: 0 <= i < |events| ==> !(events[i].Changed? && events[i].quantity == ReferenceValue)
    ensures var b := ConvertedBinding(Axis.Y, CriteriaConverter, TriggerLevel);
            var h' := SubscribedAll(h, [Channel, ReferencePoint], InvalidateDerivedValue(CriteriaConverter));
            Replay(b, h', st, events).Some? ==> Synced(b, Replay(b, h', st, events).value)
  {
    var b := ConvertedBinding(Axis.Y, CriteriaConverter, TriggerLevel);
    var h' := SubscribedAll(h, [Channel, ReferencePoint], InvalidateDerivedValue(CriteriaConverter));
    forall i | 0 <= i < |events| ensures Tracked(b, h', events[i]) {
      FollowsAllButReferenceValue(b, h, [Channel, ReferencePoint], events[i]);
    }
    ReplayKeepsSynced(b, h', st, events);
  }

  /** The trigger point cursor needs no handler: it follows every change and every move. */
  lemma {:induction false} TriggerPointCursorStaysSynced(h: Handlers, st: BindingState, events: seq<Event>)
    requires Synced(DirectBinding(Axis.X, TriggerHorizontalPosition), st)
    ensures var b := DirectBinding(Axis.X, TriggerHorizontalPosition);
            Replay(b, h, st, events).Some? && Synced(b, Replay(b, h, st, events).value)
    decreases |events|
  {
    var b := DirectBinding(Axis.X, TriggerHorizontalPosition);
    if events != [] {
      StepKeepsSynced(b, h, st, events[0]);
      TriggerPointCursorStaysSynced(h, Step(b, h, st, events[0]).value, events[1..]);
    }
  }
}
