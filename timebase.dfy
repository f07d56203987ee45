/**
 * The configuration of a level-based scope trigger
 * (Display.ViewModels/Timebase/LevelTriggerConfiguration.cs).
 */
module Timebase {

  /**
   * `LevelTriggerMode` is a C# enum with underlying type `short`: a variable of
   * that type may hold any 16-bit value, of which two are declared members.
   */
  newtype LevelTriggerMode = x: int | -0x8000 <= x < 0x8000

  const RisingEdge: LevelTriggerMode := 0
  const FallingEdge: LevelTriggerMode := 1

  /** The declared members of the enum, and no other value. */
  predicate IsDeclared(mode: LevelTriggerMode) {
    mode == RisingEdge || mode == FallingEdge
  }

  /** The property names the setters report (the caller's member name). */
  const ModeProperty := "Mode"
  const LevelProperty := "Level"

  class LevelTriggerConfiguration {
    var mode: LevelTriggerMode
    var level: real
    /** The change notifications raised so far, oldest first. */
    var notifications: seq<string>

    /** Default settings: rising edge at level 0, each set through its setter. */
    constructor ()
      ensures mode == RisingEdge && level == 0.0
      ensures notifications == [ModeProperty, LevelProperty]
    {
      notifications := [];
      new;
      SetMode(RisingEdge);
      SetLevel(0.0);
    }

    /** The given mode and level, each set through its setter. */
    constructor Create(mode: LevelTriggerMode, level: real)
      ensures this.mode == mode && this.level == level
      ensures notifications == [ModeProperty, LevelProperty]
    {
      notifications := [];
      new;
      SetMode(mode);
      SetLevel(level);
    }

    /** Stores the mode and always notifies, even if the mode is unchanged. */
    method SetMode(value: LevelTriggerMode)
      modifies this
      ensures mode == value && level == old(level)
      ensures notifications == old(notifications) + [ModeProperty]
    {
      mode := value;
      notifications := notifications + [ModeProperty];
    }

    /** Stores the level and always notifies, even if the level is unchanged. */
    method SetLevel(value: real)
      modifies this
      ensures level == value && mode == old(mode)
      ensures notifications == old(notifications) + [LevelProperty]
    {
      level := value;
      notifications := notifications + [LevelProperty];
    }
  }
}
