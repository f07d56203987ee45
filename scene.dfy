/**
 * What the cursor factories read from the viewmodels around them. The factories
 * capture closures such as `() => cursorVM.Value` or
 * `() => graphbaseVM.ScaleFactor` and run them later, each time a caption is
 * drawn or a converter recomputes. Here each such closure is named by the
 * `Quantity` it reads, and a `Snapshot` gives the value of every quantity at
 * one moment: running a closure at that moment is reading the snapshot.
 */
module Scene {
  import opened Timebase
  import Optional
  import Rendering

  /** The observable (INotifyPropertyChanged) objects whose changes a cursor may follow. */
  datatype Source =
    | CursorViewModel       // the MeasurementCursorViewModel of the cursor
    | Graphbase             // the GraphbaseViewModel
    | Trigger               // graphbaseVM.TriggerVM
    | Channel               // the ChannelViewModel of the cursor or of the trigger
    | ReferencePoint        // channel.ReferencePointPosition
    | LevelTrigger          // the LevelTriggerViewModel

  /** The live numeric values the factories' closures read. */
  datatype Quantity =
    | CursorValue                // cursorVM.Value
    | TriggerLevel               // triggerVM.Level
    | GraphbaseScaleFactor       // graphbaseVM.ScaleFactor
    | TriggerHorizontalPosition  // graphbaseVM.TriggerVM.HorizontalPosition
    | ChannelYScaleFactor        // channel.YScaleFactor
    | ReferencePointY            // channel.ReferencePointPosition.Y
    | ReferenceValue             // the result of the caller's referenceLevelProvider
    | DeltaReferenceValue        // the result of the caller's deltaReferenceLevelProvider

  /** The results of the caller's providers, which no viewmodel of the factories owns. */
  predicate IsProviderResult(q: Quantity) {
    q == ReferenceValue || q == DeltaReferenceValue
  }

  /**
   * The object that raises PropertyChanged when the quantity changes. The two
   * provider results are functions the caller hands in; the factories
   * subscribe nothing for them, so here they have no owner. Whether a
   * caller's provider reads a property of some viewmodel is not visible to
   * the factories.
   */
  function Owner(q: Quantity): (o: Optional.Option<Source>)
    ensures o.None? <==> IsProviderResult(q)
    ensures o == Optional.Some(Graphbase) <==> q == GraphbaseScaleFactor
    ensures o == Optional.Some(Channel) <==> q == ChannelYScaleFactor
  {
    match q
    case CursorValue => Optional.Some(CursorViewModel)
    case TriggerLevel => Optional.Some(LevelTrigger)
    case GraphbaseScaleFactor => Optional.Some(Graphbase)
    case TriggerHorizontalPosition => Optional.Some(Trigger)
    case ChannelYScaleFactor => Optional.Some(Channel)
    case ReferencePointY => Optional.Some(ReferencePoint)
    case ReferenceValue => Optional.None
    case DeltaReferenceValue => Optional.None
  }

  /**
   * The trigger state of the sampling engine. Its enum is not part of this
   * model; `Idle` stands for every state other than the two the captions name.
   */
  datatype TriggerState = Idle | Armed | Triggered

  /**
   * The values every closure would read at one moment: the numeric
   * quantities, the trigger state and graphbaseVM.BaseUnitString, which the
   * trigger point cursor's position text reads at every redraw.
   */
  datatype Snapshot = Snapshot(values: Quantity -> real, triggerState: TriggerState, graphbaseBaseUnitString: string)

  /** The snapshot after one quantity took a new value. */
  function Updated(s: Snapshot, q: Quantity, v: real): (r: Snapshot)
    ensures r.values(q) == v && r.triggerState == s.triggerState
    ensures r.graphbaseBaseUnitString == s.graphbaseBaseUnitString
    ensures forall p :: p != q ==> r.values(p) == s.values(p)
  {
    s.(values := p => if p == q then v else s.values(p))
  }

  /**
   * The fields of a GraphbaseViewModel a factory reads once, at creation. The
   * trigger point cursor reads the base unit again at every redraw, from the
   * snapshot.
   */
  datatype GraphbaseView = GraphbaseView(baseUnitString: string, color: Rendering.Color)

  /** The fields of a ChannelViewModel a factory reads once, at creation. */
  datatype ChannelView = ChannelView(baseUnitString: string, color: Rendering.Color)

  /** The fields of a LevelTriggerViewModel a factory reads once, at creation. */
  datatype LevelTriggerView = LevelTriggerView(mode: LevelTriggerMode, channelBaseUnitString: string)
}
