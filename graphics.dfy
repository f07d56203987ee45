/**
 * The cursor drawn on the scope screen (Display/Graphics/Scope/ScopeCursor.cs)
 * and the enums and caption record it is made of.
 *
 * The enum declarations are not part of this model: each lists the members
 * the core uses, and the first member stands for C#'s zero default, which an
 * auto-property keeps until something assigns it.
 */
module Graphics {
  import Optional
  type Option<T> = Optional.Option<T>
  import opened Rendering
  import opened Captions

  datatype ScopeCursorLines = None | X | Y | Both

  datatype ScopeCursorLineWeight = Low | Medium

  datatype ScopeCursorMarkers = NoMarkers | XLeft | XRight | XFull | YUpper | YLower | YFull

  datatype ScopeHorizontalAlignment = Left | Right

  datatype ScopeVerticalAlignment = Top | Bottom

  datatype ScopeAlignmentReference = XPositionAndVerticalRangeEdge | YPositionAndHorizontalRangeEdge

  /** A caption: its text provider, alignment pair, anchor, visibility and colour. */
  datatype ScopePositionCaption = ScopePositionCaption(
    text: TextProvider,
    horizontalAlignment: ScopeHorizontalAlignment,
    verticalAlignment: ScopeVerticalAlignment,
    alignmentReference: ScopeAlignmentReference,
    visible: bool,
    color: Color)

  /** A value to draw a tick for; the tick type is not part of this model. */
  datatype ScopeCursorValueTick = ScopeCursorValueTick(value: real)

  /** The cursor's default colour, white. */
  const DefaultColor := Color(1.0, 1.0, 1.0)

  /** The zero defaults of the enum-typed auto-properties. */
  const DefaultLines := ScopeCursorLines.None
  const DefaultLineWeight := ScopeCursorLineWeight.Low
  const DefaultMarkers := ScopeCursorMarkers.NoMarkers

  /** The value of every property of a cursor at one moment. */
  datatype CursorProperties = CursorProperties(
    position: Point,
    lines: ScopeCursorLines,
    highlightedLines: ScopeCursorLines,
    selectableLines: ScopeCursorLines,
    lineWeight: ScopeCursorLineWeight,
    color: Color,
    markers: ScopeCursorMarkers,
    captions: Option<seq<ScopePositionCaption>>,
    xTicks: Option<seq<ScopeCursorValueTick>>,
    yTicks: Option<seq<ScopeCursorValueTick>>)

  /**
   * The source's ScopeCursor as given has no LineWeight property, although
   * both cursor factories assign one; the model gives it one, which neither
   * constructor assigns.
   */
  class ScopeCursor {
    var position: Point
    var lines: ScopeCursorLines
    var highlightedLines: ScopeCursorLines
    var selectableLines: ScopeCursorLines
    var lineWeight: ScopeCursorLineWeight
    var color: Color
    var markers: ScopeCursorMarkers
    var captions: Option<seq<ScopePositionCaption>>
    var xTicks: Option<seq<ScopeCursorValueTick>>
    var yTicks: Option<seq<ScopeCursorValueTick>>

    ghost function Properties(): (p: CursorProperties)
      reads this
    {
      CursorProperties(position, lines, highlightedLines, selectableLines, lineWeight,
                       color, markers, captions, xTicks, yTicks)
    }

    /** Default settings: both lines visible and selectable, white; the rest unassigned. */
    constructor ()
      ensures Properties() == CursorProperties(Origin, Both, DefaultLines, Both, DefaultLineWeight,
                                               DefaultColor, DefaultMarkers, Optional.None, Optional.None, Optional.None)
    {
      position := Origin;
      highlightedLines := DefaultLines;
      lineWeight := DefaultLineWeight;
      markers := DefaultMarkers;
      captions := Optional.None;
      xTicks := Optional.None;
      yTicks := Optional.None;
      lines := Both;
      selectableLines := Both;
      color := DefaultColor;
    }

    /**
     * Stores the given properties and clears the highlight, whatever it is
     * given; line weight and ticks keep their defaults.
     */
    constructor WithProperties(position: Point, lines: ScopeCursorLines, selectableLines: ScopeCursorLines,
                               color: Color, markers: ScopeCursorMarkers,
                               captions: Option<seq<ScopePositionCaption>>)
      ensures Properties() == CursorProperties(position, lines, ScopeCursorLines.None, selectableLines,
                                               DefaultLineWeight, color, markers, captions, Optional.None, Optional.None)
    {
      lineWeight := DefaultLineWeight;
      xTicks := Optional.None;
      yTicks := Optional.None;
      this.position := position;
      this.lines := lines;
      highlightedLines := ScopeCursorLines.None;
      this.selectableLines := selectableLines;
      this.color := color;
      this.markers := markers;
      this.captions := captions;
    }

    method SetPosition(value: Point)
      modifies this
      ensures Properties() == old(Properties()).(position := value)
    {
      position := value;
    }

    method SetLines(value: ScopeCursorLines)
      modifies this
      ensures Properties() == old(Properties()).(lines := value)
    {
      lines := value;
    }

    method SetHighlightedLines(value: ScopeCursorLines)
      modifies this
      ensures Properties() == old(Properties()).(highlightedLines := value)
    {
      highlightedLines := value;
    }

    method SetSelectableLines(value: ScopeCursorLines)
      modifies this
      ensures Properties() == old(Properties()).(selectableLines := value)
    {
      selectableLines := value;
    }

    method SetLineWeight(value: ScopeCursorLineWeight)
      modifies this
      ensures Properties() == old(Properties()).(lineWeight := value)
    {
      lineWeight := value;
    }

    method SetColor(value: Color)
      modifies this
      ensures Properties() == old(Properties()).(color := value)
    {
      color := value;
    }

    method SetMarkers(value: ScopeCursorMarkers)
      modifies this
      ensures Properties() == old(Properties()).(markers := value)
    {
      markers := value;
    }

    method SetCaptions(value: Option<seq<ScopePositionCaption>>)
      modifies this
      ensures Properties() == old(Properties()).(captions := value)
    {
      captions := value;
    }

    method SetXTicks(value: Option<seq<ScopeCursorValueTick>>)
      modifies this
      ensures Properties() == old(Properties()).(xTicks := value)
    {
      xTicks := value;
    }

    method SetYTicks(value: Option<seq<ScopeCursorValueTick>>)
      modifies this
      ensures Properties() == old(Properties()).(yTicks := value)
    {
      yTicks := value;
    }
  }
}
