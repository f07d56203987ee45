# Scope cursor assembly, modelled in Dafny

This project models the cursor-assembly layer of ScopeLib's oscilloscope display. It also
models the small observable objects that layer reads:

- **Cursor factories.** `MeasurementCursorFactory` builds time and level measurement cursors.
  `TriggerCursorFactory` builds trigger-criteria and trigger-point cursors. Each factory
  picks an axis, markers and caption layout. It builds lazily evaluated caption texts. It
  binds one coordinate of the cursor position to a domain value through an affine converter,
  or directly. It subscribes an invalidation handler to every influencing viewmodel.
- **`ScopeCursor`.** A record of mutable properties with two constructors.
- **`LevelTriggerConfiguration` and `MeasurementCursorViewModel`.** Viewmodels whose setters
  store a value and then always raise a change notification.

How the source's pieces are represented:

- **Closures.** The factories capture closures (`() => cursorVM.Value`,
  `() => graphbaseVM.ScaleFactor`, caption text providers) and run them later. Each closure
  is represented by what it reads. A `Quantity` names a live value, and a `Snapshot` gives
  every quantity's value at one moment. `TextProvider`, `Converter` and `Binding` are small
  datatypes that are evaluated against a snapshot. A field a factory reads once, at creation,
  is a plain value (`GraphbaseView`, `ChannelView`, `LevelTriggerView`). A field a closure
  reads at every run is part of the snapshot. Examples: the trigger state, and the
  graphbase's base unit, which the trigger point cursor's position text reads at every redraw.
- **Binding library.** Only its observable effect is modelled. A `BindingState` holds the
  snapshot and the bound coordinate. `Step` applies one change and its propagation. The
  property `Synced` says the coordinate equals the converted current value. The lemmas prove
  that every tracked change keeps `Synced` true. A tracked change is a move of the cursor, a
  change of the bound value, a change of an object holding the handler, or a notification of a
  property no binding reads (a base unit, a colour, the trigger state). The handler ignores
  which property changed, so such a notification also recomputes the cursor.
- **Subscriptions.** The PropertyChanged invocation lists of the viewmodel objects are a
  `map<Source, seq<Handler>>`. The factories' `ForEachDo` loop is the method `SubscribeAll`.
- **Reference value.** The converter reads the caller's reference value provider at every
  recompute. The factories subscribe nothing for it; whether that provider reads a property of
  one of the influencing objects cannot be seen in these files.
  `ReferenceValueChangeLeavesCursorStale` proves that such a change leaves the cursor off its
  target. `NotificationRestoresStaleCursor` proves that the next notification of an object
  holding the handler puts it back, whatever property the notification is for.

Where the source files disagree with each other:

- `ScopeCursor.cs` declares no `LineWeight` property, but both factories assign one. The model
  gives `ScopeCursor` a `lineWeight` field, which neither constructor assigns.
- The factories build cursors with C# object initialisers. An object initialiser runs the
  default constructor and then the setters, so `HighlightedLines` keeps its zero default. The
  `HighlightedLines = None` of the second constructor does not apply to them.
- No code in these files removes a handler.

## Model

| member | source | states |
|---|---|---|
| Conversion.Forward | Display.Views/Cursors/MeasurementCursorFactory.cs:151 | forward map (v − refValue)·scale + refPos; the reference value lands on the reference position |
| Conversion.Inverse | Display.Views/Cursors/MeasurementCursorFactory.cs:152 | inverse map (d − refPos)/scale + refValue, for scale ≠ 0; forward of its result is the coordinate it was given |
| Conversion.InverseOfForward | Display.Views/Cursors/MeasurementCursorFactory.cs:150-152 | inverse(forward(v)) == v when scale ≠ 0 |
| Conversion.ForwardOfInverse | Display.Views/Cursors/TriggerCursorFactory.cs:113-115 | forward(inverse(d)) == d when scale ≠ 0; the trigger converter is the same map |
| Conversion.ForwardInjective | Display.Views/Cursors/MeasurementCursorFactory.cs:151 | with scale ≠ 0, two values share a coordinate exactly when they are equal |
| Captions.ModeSymbol | Display.Views/Cursors/TriggerCursorFactory.cs:48-51 | RisingEdge gives U+2191 and FallingEdge gives U+2193 (both iff); '?' exactly for a value outside the declared members |
| Captions.TriggerCaption | Display.Views/Cursors/TriggerCursorFactory.cs:34 | the two-character caption 'T' followed by the mode glyph |
| Captions.DeclaredModeCaption | Display.Views/Cursors/TriggerCursorFactory.cs:48-51 | for RisingEdge and FallingEdge the trigger caption contains no '?' |
| Captions.TriggerStateCaption | Display.Views/Cursors/TriggerCursorFactory.cs:142-145 | Armed iff "A'd", Triggered iff "T'd", every other state iff "" |
| Captions.DeltaCaption | Display.Views/Cursors/MeasurementCursorFactory.cs:137-140 | value text, then " / ", U+2206, " = ", then the text of value − reference, stated position by position |
| Captions.DeltaCaptionDiffers | Display.Views/Cursors/MeasurementCursorFactory.cs:131-141 | a delta caption never equals the plain value caption |
| Captions.Text | Display.Views/Cursors/MeasurementCursorFactory.cs:127-141 | a caption closure run at a redraw: value text from the current value; delta text strictly extends the value text with the separator and the delta text; state caption is one of "", "A'd", "T'd"; position text is the t with t·ScaleFactor == HorizontalPosition, in the graphbase's base unit at that moment |
| Captions.TriggerPositionText | Display.Views/Cursors/TriggerCursorFactory.cs:147-149 | shows the time t with t·ScaleFactor == HorizontalPosition (scale ≠ 0) |
| MeasurementCursors.ValueTextProvider | Display.Views/Cursors/MeasurementCursorFactory.cs:130-141 | the delta caption is chosen exactly when a delta reference provider is given, otherwise the plain value text; both use the cursor's unit and value and run on any snapshot |
| MeasurementCursors.ValueCaptionText | Display.Views/Cursors/MeasurementCursorFactory.cs:127-141 | no delta provider: exactly BuildValueText(unit, value); with one: that text + " / " + U+2206 + " = " + BuildValueText(unit, value − deltaRef) |
| MeasurementCursors.CreateXAxisMeasurementCursor | Display.Views/Cursors/MeasurementCursorFactory.cs:175-206 | lines and selectable lines X, weight Medium; reference: XLeft with caption Right, else XRight with Left; one visible caption, Top, XPositionAndVerticalRangeEdge, cursor colour |
| MeasurementCursors.CreateYAxisMeasurementCursor | Display.Views/Cursors/MeasurementCursorFactory.cs:211-242 | lines and selectable lines Y, weight Medium; reference: YLower with caption Top, else YUpper with Bottom; one visible caption, Right, YPositionAndHorizontalRangeEdge, cursor colour |
| MeasurementCursors.CreateMeasurementCursor | Display.Views/Cursors/MeasurementCursorFactory.cs:114-170 | layout of the chosen axis (Y gives the Y cursor, else X); exactly one converted binding; bound coordinate == forward(value) at creation; handler subscribed to every influencing object |
| MeasurementCursors.CreateTimeMeasurementCursor | Display.Views/Cursors/MeasurementCursorFactory.cs:44-74 | X axis; scale = graphbase ScaleFactor, refPos = trigger HorizontalPosition; handler on graphbase and trigger viewmodels |
| MeasurementCursors.CreateLevelMeasurementCursor | Display.Views/Cursors/MeasurementCursorFactory.cs:79-109 | Y axis; scale = channel YScaleFactor, refPos = ReferencePointPosition.Y; handler on channel and reference point |
| MeasurementCursors.TimeCursorStaysSynced | Display.Views/Cursors/MeasurementCursorFactory.cs:52-73 | after any changes, notifications and moves that leave the reference value alone, with the object graph as it was at creation, Position.X == forward(cursor value) under the current parameters |
| MeasurementCursors.TimeCursorResyncedByNotification | Display.Views/Cursors/MeasurementCursorFactory.cs:56-60 | a time cursor left off target by a reference-value change is back on target after any notification of the graphbase or its trigger (BaseUnitString, Color, State, ...) |
| MeasurementCursors.LevelCursorStaysSynced | Display.Views/Cursors/MeasurementCursorFactory.cs:87-108 | the same for Position.Y of a level cursor |
| TriggerCursors.CreateTriggerCriteriaCursor | Display.Views/Cursors/TriggerCursorFactory.cs:43-74 | glyph chosen once from the mode; Y axis bound to the trigger level through channel YScaleFactor and ReferencePointPosition.Y; handler on channel and reference point |
| TriggerCursors.CreateCriteriaCursor | Display.Views/Cursors/TriggerCursorFactory.cs:79-133 | for whatever value it binds: lines Y, weight Low, markers YFull; captions trigger Left/Bottom, trigger Right/Bottom, text of that value Right/Top, all visible on YPositionAndHorizontalRangeEdge; one binding; coordinate on target at creation; handler on every influencing object |
| TriggerCursors.CreateTriggerPointCursor | Display.Views/Cursors/TriggerCursorFactory.cs:138-174 | lines X, weight Low, markers XFull, graphbase colour; captions state Left/Top, state Left/Bottom, position Right/Top, the position text carrying no unit of its own; Position.X == HorizontalPosition with no converter; one binding |
| TriggerCursors.CriteriaCaptionTexts | Display.Views/Cursors/TriggerCursorFactory.cs:90-92 | the criteria captions show 'T' plus the glyph, and BuildValueText(unit, Level) |
| TriggerCursors.TriggerPointCaptionTexts | Display.Views/Cursors/TriggerCursorFactory.cs:142-149 | the trigger point captions show the state caption, and BuildValueText(graphbase BaseUnitString, HorizontalPosition / ScaleFactor) with the base unit current at the redraw, so a new base unit shows at the next redraw |
| TriggerCursors.CriteriaCursorStaysSynced | Display.Views/Cursors/TriggerCursorFactory.cs:53-73 | after any changes, notifications and moves that leave the reference value alone, with the object graph as it was at creation, Position.Y == forward(Level) |
| TriggerCursors.TriggerPointCursorStaysSynced | Display.Views/Cursors/TriggerCursorFactory.cs:171 | after any changes, notifications and moves, Position.X == HorizontalPosition |
| Bindings.TargetIgnoresUnread | Display.Views/Cursors/MeasurementCursorFactory.cs:150-157 | a change of a quantity the binding does not read leaves its target unchanged |
| Bindings.Subscribe | Display.Views/Cursors/MeasurementCursorFactory.cs:163 | `+=` appends the handler to that object's list and changes no other list |
| Bindings.SubscribedAllEffect | Display.Views/Cursors/MeasurementCursorFactory.cs:161-167 | subscribing keeps earlier handlers, reaches every listed object and leaves other objects alone |
| Bindings.SubscribeAll | Display.Views/Cursors/TriggerCursorFactory.cs:124-130 | the ForEachDo loop subscribes the handler to each influencing object in order |
| Bindings.Reacts | Display.Views/Cursors/MeasurementCursorFactory.cs:157-167 | a binding always follows its own bound value; a direct binding follows nothing else; a provider result is followed only when it is the bound value; any other change is followed only through a handler on the object that raises it |
| Bindings.Step | Display.Views/Cursors/MeasurementCursorFactory.cs:150-167 | a change updates the snapshot, and when the binding reacts the coordinate is back on target; a move puts the cursor at the moved coordinate and the bound value back onto it; a notification of any property leaves the numeric values alone, can change the trigger state only from the trigger and the base unit only from the graphbase, and recomputes the coordinate when the notifying object holds the handler; the step fails exactly for a move through a converter whose scale reads zero |
| Bindings.StepKeepsSynced | Display.Views/Cursors/MeasurementCursorFactory.cs:159-167 | a move, a change of the bound value, or a change of an object holding the handler restores coordinate == forward(value) |
| Bindings.ReplayKeepsSynced | Display.Views/Cursors/MeasurementCursorFactory.cs:52-54 | the same after any sequence of such events |
| Bindings.UnwatchedChangeIsInvisible | Display.Views/Cursors/MeasurementCursorFactory.cs:161-167 | a change nothing watches leaves the cursor where it is |
| Bindings.ReferenceValueChangeLeavesCursorStale | Display.Views/Cursors/MeasurementCursorFactory.cs:151 | the reference value is read at recompute but not watched: with scale ≠ 0, changing it leaves the cursor off target |
| Bindings.NotificationRestoresStaleCursor | Display.Views/Cursors/MeasurementCursorFactory.cs:161-167 | after a reference-value change has left the cursor off target, one notification of an object holding the handler, for any property, puts it back on target |
| Bindings.FollowsAllButReferenceValue | Display.Views/Cursors/MeasurementCursorFactory.cs:56-60 | with the handler on the owners of scale and reference position, every event except a reference-value change is tracked |
| Scene.Owner | Display.Views/Cursors/MeasurementCursorFactory.cs:56-60 | each viewmodel property read has the object that raises its PropertyChanged (ScaleFactor the graphbase, YScaleFactor the channel); the caller's provider results have none |
| Graphics.ScopeCursor.constructor | Display/Graphics/Scope/ScopeCursor.cs:30-40 | Lines and SelectableLines Both, colour white (1,1,1); captions and ticks null |
| Graphics.ScopeCursor.WithProperties | Display/Graphics/Scope/ScopeCursor.cs:51-62 | stores position, lines, selectable lines, colour, markers and captions as given; HighlightedLines None whatever the arguments; ticks unassigned |
| Graphics.ScopeCursor.SetPosition | Display/Graphics/Scope/ScopeCursor.cs:67-68 | changes Position only |
| Graphics.ScopeCursor.SetLines | Display/Graphics/Scope/ScopeCursor.cs:73-74 | changes Lines only |
| Graphics.ScopeCursor.SetHighlightedLines | Display/Graphics/Scope/ScopeCursor.cs:79-80 | changes HighlightedLines only |
| Graphics.ScopeCursor.SetSelectableLines | Display/Graphics/Scope/ScopeCursor.cs:85-86 | changes SelectableLines only |
| Graphics.ScopeCursor.SetLineWeight | Display.Views/Cursors/MeasurementCursorFactory.cs:197 | changes LineWeight only (a property the factories assign) |
| Graphics.ScopeCursor.SetColor | Display/Graphics/Scope/ScopeCursor.cs:91-92 | changes Color only |
| Graphics.ScopeCursor.SetMarkers | Display/Graphics/Scope/ScopeCursor.cs:97-98 | changes Markers only |
| Graphics.ScopeCursor.SetCaptions | Display/Graphics/Scope/ScopeCursor.cs:103-104 | changes Captions only |
| Graphics.ScopeCursor.SetXTicks | Display/Graphics/Scope/ScopeCursor.cs:109-110 | changes XTicks only |
| Graphics.ScopeCursor.SetYTicks | Display/Graphics/Scope/ScopeCursor.cs:115-116 | changes YTicks only |
| Timebase.LevelTriggerConfiguration.constructor | Display.ViewModels/Timebase/LevelTriggerConfiguration.cs:40-45 | Mode RisingEdge, Level 0.0, set through the setters (two notifications) |
| Timebase.LevelTriggerConfiguration.Create | Display.ViewModels/Timebase/LevelTriggerConfiguration.cs:56-62 | Mode == mode, Level == level, set through the setters |
| Timebase.LevelTriggerConfiguration.SetMode | Display.ViewModels/Timebase/LevelTriggerConfiguration.cs:64-79 | stores the mode, one "Mode" notification, Level unchanged |
| Timebase.LevelTriggerConfiguration.SetLevel | Display.ViewModels/Timebase/LevelTriggerConfiguration.cs:81-96 | stores the level, one "Level" notification even for an equal value, Mode unchanged |
| Channels.MeasurementCursorViewModel.constructor | Display.ViewModels/Channels/MeasurementCursorViewModel.cs:30-34 | Value 0.0 and Visible false, set in that order through the setters |
| Channels.MeasurementCursorViewModel.SetVisible | Display.ViewModels/Channels/MeasurementCursorViewModel.cs:36-51 | stores the flag, one "Visible" notification even for an equal value, Value unchanged |
| Channels.MeasurementCursorViewModel.SetValue | Display.ViewModels/Channels/MeasurementCursorViewModel.cs:53-68 | stores the value, one "Value" notification even for an equal value, Visible unchanged |

## Left out

- The Praeclarum.Bind engine (`Binding.Create`, `InvalidateMember`) is a foreign library that works on expression trees. Only its effect is modelled, by `Bindings.Step`.
- `UnitHelper.BuildValueText` is not part of this model. It is the uninterpreted parameter `fmt`.
- `CairoHelpers.ToCairoColor` is not part of this model. Colours reach the factories already converted, and `Point` and `Color` stand in for the Cairo types.
- Floating point is modelled as `real`. NaN and infinity from a zero scale factor are modelled as a failed step (`Step` returns `None`), or excluded by a `scale ≠ 0` precondition. Rounding in the round trips is not modelled.
- Event dispatch (`INotifyPropertyChanged`, `ViewModelBase.RaisePropertyChanged`, handler order) is not modelled. A raised notification is one entry appended to the object's log, named after the property.
- `TriggerConfigurationBase` is not part of this model. The channel configuration that `LevelTriggerConfiguration`'s second constructor passes to it is dropped.
- `GraphbaseViewModel`, `ChannelViewModel`, `LevelTriggerViewModel` and `TriggerState` are not part of this model. Only the fields the factories read are kept, and the objects behind them are the ones present when the cursor is created. `TriggerState` keeps Armed and Triggered, and `Idle` stands for every other state.
- `ScopeCursorLines`, `ScopeCursorMarkers`, `ScopeCursorLineWeight`, the alignment enums and `ScopeCursorValueTick` are not part of this model. Each enum lists the members the core uses, and its first member stands for C#'s zero default.
- The mechanism of the user dragging a cursor is outside the factories. `Dragged` models only the binding pushing a moved coordinate back to the bound value.
- `BoundCursor` teardown is not modelled. No code in these files removes the handlers the factories add.
- Handler identity is not modelled: a handler is known by the quantities its converter reads, so two cursors of the same kind hold equal handlers, while in the source each has a delegate and converter object of its own.
- A notification's effect on the cursor colour and on captions whose unit was read at creation is not modelled: `Notified` carries only the trigger state and the graphbase base unit, the two non-numeric readings a caption takes at every redraw.
- The object graph is fixed at creation: replacing `graphbaseVM.TriggerVM` or a channel's `ReferencePointPosition` after a cursor is built is not modelled. The factories subscribe the handler to the objects present at creation (MeasurementCursorFactory.cs:59, :94; TriggerCursorFactory.cs:61). The providers re-read the reference at every run (MeasurementCursorFactory.cs:69, :104; TriggerCursorFactory.cs:69). So after such a replacement they would read the new object while the handler stays on the old one, and `TimeCursorStaysSynced`, `LevelCursorStaysSynced` and `CriteriaCursorStaysSynced` would no longer hold.
