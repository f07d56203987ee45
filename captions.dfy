/**
 * The texts the cursor captions show. Captions hold a text provider, which is
 * run on every redraw; `TextProvider` names each provider the factories build
 * and `Text` runs it against the values of the moment.
 *
 * The unit formatter `UnitHelper.BuildValueText` is not part of this model: it
 * is the parameter `fmt`, about which nothing is assumed.
 */
module Captions {
  import opened Timebase
  import opened Scene

  /** BuildValueText(baseUnitString, value). */
  type Formatter = (string, real) -> string

  const DeltaSymbol := '\U{2206}'
  const TriggerSymbol := 'T'
  const TriggerTypeRisingSymbol := '\U{2191}'
  const TriggerTypeFallingSymbol := '\U{2193}'
  const UnknownModeSymbol := '?'
  const ArmedCaption := "A'd"
  const TriggeredCaption := "T'd"

  /** What the delta caption puts between the value text and the delta text. */
  const DeltaSeparator := " / " + [DeltaSymbol] + " = "

  /** The glyph for a trigger mode; a value outside the declared members gives '?'. */
  function ModeSymbol(mode: LevelTriggerMode): (symbol: char)
    ensures symbol == TriggerTypeRisingSymbol <==> mode == RisingEdge
    ensures symbol == TriggerTypeFallingSymbol <==> mode == FallingEdge
    ensures symbol == UnknownModeSymbol <==> !IsDeclared(mode)
  {
    if mode == RisingEdge then TriggerTypeRisingSymbol
    else if mode == FallingEdge then TriggerTypeFallingSymbol
    else UnknownModeSymbol
  }

  /** The trigger caption: the trigger symbol followed by the mode glyph. */
  function TriggerCaption(modeSymbol: char): (caption: string)
    ensures |caption| == 2 && caption[0] == TriggerSymbol && caption[1] == modeSymbol
  {
    [TriggerSymbol, modeSymbol]
  }

  /** For a declared mode the trigger caption never shows the unknown-mode glyph. */
  lemma DeclaredModeCaption(mode: LevelTriggerMode)
    requires IsDeclared(mode)
    ensures UnknownModeSymbol !in TriggerCaption(ModeSymbol(mode))
  {
    var caption := TriggerCaption(ModeSymbol(mode));
    assert caption == [TriggerSymbol, ModeSymbol(mode)];
  }

  /** The tri-state caption of the trigger point cursor. */
  function TriggerStateCaption(state: TriggerState): (caption: string)
    ensures caption == ArmedCaption <==> state == Armed
    ensures caption == TriggeredCaption <==> state == Triggered
    ensures caption == "" <==> state != Armed && state != Triggered
  {
    if state == Armed then ArmedCaption
    else if state == Triggered then TriggeredCaption
    else ""
  }

  /**
   * The caption of a measurement cursor that has a delta reference: the value
   * text, the separator, then the text of the difference to the reference.
   */
  function DeltaCaption(fmt: Formatter, unit: string, value: real, reference: real): (caption: string)
    ensures |caption| == |fmt(unit, value)| + |DeltaSeparator| + |fmt(unit, value - reference)|
    ensures caption[..|fmt(unit, value)|] == fmt(unit, value)
    ensures caption[|fmt(unit, value)|..|caption| - |fmt(unit, value - reference)|] == DeltaSeparator
    ensures caption[|caption| - |fmt(unit, value - reference)|..] == fmt(unit, value - reference)
  {
    fmt(unit, value) + " / " + [DeltaSymbol] + " = " + fmt(unit, value - reference)
  }

  /** A delta caption is never the plain value caption. */
  lemma DeltaCaptionDiffers(fmt: Formatter, unit: string, value: real, reference: real)
    ensures DeltaCaption(fmt, unit, value, reference) != fmt(unit, value)
  {
    assert |DeltaSeparator| == 7;
  }

  /**
   * The position text of the trigger point cursor: the horizontal position,
   * a screen offset, turned back into a time through the scale factor.
   */
  function TriggerPositionText(fmt: Formatter, unit: string, horizontalPosition: real, scaleFactor: real): (text: string)
    requires scaleFactor != 0.0
    ensures exists t :: t * scaleFactor == horizontalPosition && text == fmt(unit, t)
  {
    var t := horizontalPosition / scaleFactor;
    assert t * scaleFactor == horizontalPosition;
    fmt(unit, t)
  }

  /** The text providers the factories hand to their captions. */
  datatype TextProvider =
    | FixedText(text: string)                                           // () => triggerCaption
    | ValueText(unit: string, value: Quantity)                          // BuildValueText(unit, value())
    | ValueWithDeltaText(unit: string, value: Quantity, deltaReference: Quantity)
    | TriggerStateText                                                  // from triggerVM.State
    | QuotientText(numerator: Quantity, denominator: Quantity)          // in the graphbase's current unit

  /** Whether running the provider at this moment is defined (no division by zero). */
  predicate Defined(p: TextProvider, s: Snapshot) {
    p.QuotientText? ==> s.values(p.denominator) != 0.0
  }

  /**
   * The text the provider returns when a redraw runs it at this moment: every
   * value is the one current at the redraw, not at the cursor's creation.
   */
  function Text(p: TextProvider, fmt: Formatter, s: Snapshot): (text: string)
    requires Defined(p, s)
    ensures p.ValueText? ==> text == fmt(p.unit, s.values(p.value))
    ensures p.ValueWithDeltaText? ==>
              fmt(p.unit, s.values(p.value)) < text &&
              DeltaSeparator + fmt(p.unit, s.values(p.value) - s.values(p.deltaReference)) <=
                text[|fmt(p.unit, s.values(p.value))|..]
    ensures p.TriggerStateText? ==> text in {"", ArmedCaption, TriggeredCaption}
    ensures p.QuotientText? ==>
              exists t :: t * s.values(p.denominator) == s.values(p.numerator) &&
                          text == fmt(s.graphbaseBaseUnitString, t)
  {
    match p
    case FixedText(text) => text
    case ValueText(unit, value) => fmt(unit, s.values(value))
    case ValueWithDeltaText(unit, value, reference) =>
      var basic := fmt(unit, s.values(value));
      var caption := DeltaCaption(fmt, unit, s.values(value), s.values(reference));
      assert caption[|basic|..] == DeltaSeparator + fmt(unit, s.values(value) - s.values(reference));
      caption
    case TriggerStateText => TriggerStateCaption(s.triggerState)
    case QuotientText(numerator, denominator) =>
      TriggerPositionText(fmt, s.graphbaseBaseUnitString, s.values(numerator), s.values(denominator))
  }
}
