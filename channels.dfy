/**
 * The viewmodel of a measurement cursor
 * (Display.ViewModels/Channels/MeasurementCursorViewModel.cs).
 */
module Channels {

  /** The property names the setters report (the caller's member name). */
  const VisibleProperty := "Visible"
  const ValueProperty := "Value"

  class MeasurementCursorViewModel {
    var visible: bool
    var value: real
    /** The change notifications raised so far, oldest first. */
    var notifications: seq<string>

    /** Value 0 and invisible, set in that order through the setters. */
    constructor ()
      ensures value == 0.0 && !visible
      ensures notifications == [ValueProperty, VisibleProperty]
    {
      notifications := [];
      new;
      SetValue(0.0);
      SetVisible(false);
    }

    /** Stores the flag and always notifies, even if the flag is unchanged. */
    method SetVisible(v: bool)
      modifies this
      ensures visible == v && value == old(value)
      ensures notifications == old(notifications) + [VisibleProperty]
    {
      visible := v;
      notifications := notifications + [VisibleProperty];
    }

    /** Stores the value and always notifies, even if the value is unchanged. */
    method SetValue(v: real)
      modifies this
      ensures value == v && visible == old(visible)
      ensures notifications == old(notifications) + [ValueProperty]
    {
      value := v;
      notifications := notifications + [ValueProperty];
    }
  }
}
