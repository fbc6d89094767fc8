/**
 * One month cell of the grid: whether it is past, the current month or
 * still to come, its age split for the tooltip, and the fill, border and
 * animation it is drawn with.
 */
module LifeCircle {
  import opened JsMath

  datatype Phase = Past | Current | Future

  /** What a cell shows; the tooltip's dates and time-context text are not modelled. */
  datatype CellView = CellView(
    isPast: bool,
    isCurrentMonth: bool,
    hasEvent: bool,
    age: int,
    monthOfYear: int,
    backgroundColor: string,
    border: string,
    animation: string,
    progressWidth: real)

  const CurrentFill := "#ff6b6b"
  const PastFill := "#164e2d"
  const FutureFill := "transparent"
  const EventBorder := "2px solid #ffd166"
  const NoBorder := "none"
  const OpenBorder := "1px solid #164e2d"
  const Pulse := "pulse 2s infinite"
  const NoAnimation := "none"

  /** `LifeCircle` for month `monthIndex`, with `lifeEvents` as a table from month index to event. */
  function Cell(monthIndex: nat, monthsLived: int, totalMonths: int, lifeEvents: map<int, string>): CellView
    requires totalMonths > 0
  {
    var isPast := monthIndex < monthsLived;
    var isCurrentMonth := monthIndex == monthsLived;
    var hasEvent := monthIndex in lifeEvents;
    CellView(
      isPast,
      isCurrentMonth,
      hasEvent,
      monthIndex / 12,
      monthIndex % 12 + 1,
      if isCurrentMonth then CurrentFill else if isPast then PastFill else FutureFill,
      if isPast then (if hasEvent then EventBorder else NoBorder) else OpenBorder,
      if isCurrentMonth then Pulse else NoAnimation,
      (monthIndex + 1) as real / totalMonths as real * 100.0)
  }

  /** The phase of a month relative to the months lived. */
  function PhaseOf(monthIndex: nat, monthsLived: int): Phase {
    if monthIndex < monthsLived then Past else if monthIndex == monthsLived then Current else Future
  }

  /** Exactly one of past, current and future holds for every cell, and the flags say which. */
  lemma PhaseExclusive(monthIndex: nat, monthsLived: int, totalMonths: int, lifeEvents: map<int, string>)
    requires totalMonths > 0
    ensures var c := Cell(monthIndex, monthsLived, totalMonths, lifeEvents);
      && !(c.isPast && c.isCurrentMonth)
      && (c.isPast <==> PhaseOf(monthIndex, monthsLived) == Past)
      && (c.isCurrentMonth <==> PhaseOf(monthIndex, monthsLived) == Current)
      && (!c.isPast && !c.isCurrentMonth <==> PhaseOf(monthIndex, monthsLived) == Future)
  {
  }

  /** The tooltip's age and month of year recompose the index, with the month in 1..12. */
  lemma AgeSplit(monthIndex: nat, monthsLived: int, totalMonths: int, lifeEvents: map<int, string>)
    requires totalMonths > 0
    ensures var c := Cell(monthIndex, monthsLived, totalMonths, lifeEvents);
      && 1 <= c.monthOfYear <= 12
      && 0 <= c.age
      && 12 * c.age + c.monthOfYear - 1 == monthIndex
  {
  }

  /** The style of each phase: red and pulsing now, green (ringed gold on an event) before, outlined after. */
  lemma StyleByPhase(monthIndex: nat, monthsLived: int, totalMonths: int, lifeEvents: map<int, string>)
    requires totalMonths > 0
    ensures var c := Cell(monthIndex, monthsLived, totalMonths, lifeEvents);
      match PhaseOf(monthIndex, monthsLived)
      case Current =>
        c.backgroundColor == CurrentFill && c.border == OpenBorder && c.animation == Pulse
      case Past =>
        && c.backgroundColor == PastFill
        && c.border == (if monthIndex in lifeEvents then EventBorder else NoBorder)
        && c.animation == NoAnimation
      case Future =>
        c.backgroundColor == FutureFill && c.border == OpenBorder && c.animation == NoAnimation
  {
  }

  /** Only the current month pulses, and only a past month can carry the event ring. */
  lemma PulseOnlyNow(monthIndex: nat, monthsLived: int, totalMonths: int, lifeEvents: map<int, string>)
    requires totalMonths > 0
    ensures var c := Cell(monthIndex, monthsLived, totalMonths, lifeEvents);
      && (c.animation == Pulse <==> monthIndex == monthsLived)
      && (c.border == EventBorder <==> monthIndex < monthsLived && monthIndex in lifeEvents)
      && (c.hasEvent <==> monthIndex in lifeEvents)
  {
  }

  /** Within the span, the tooltip's bar is a positive share of at most 100 percent, full at the last month. */
  lemma ProgressWidthBounds(monthIndex: nat, monthsLived: int, totalMonths: int, lifeEvents: map<int, string>)
    requires 0 < totalMonths && monthIndex < totalMonths
    ensures var c := Cell(monthIndex, monthsLived, totalMonths, lifeEvents);
      && 0.0 < c.progressWidth <= 100.0
      && (monthIndex == totalMonths - 1 ==> c.progressWidth == 100.0)
  {
    var share := (monthIndex + 1) as real / totalMonths as real;
    QuotientAtMost((monthIndex + 1) as real, totalMonths as real, 1.0);
    QuotientPositive((monthIndex + 1) as real, totalMonths as real);
  }
}
