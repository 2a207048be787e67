/**
 * `formatTime` (script.js:169-188): how old a history entry is, in the four
 * buckets the history list shows. The wall clock is the parameter `now`, in
 * milliseconds; the localised date text is represented by its instant only.
 */
module RelativeTime {

  import opened Wrappers
  import opened History

  const MinuteMs := 60000
  const HourMs := 3600000
  const DayMs := 86400000

  datatype TimeLabel =
    | JustNow                 // "Только что"
    | MinutesAgo(minutes: int) // "<minutes> мин назад"
    | HoursAgo(hours: int)     // "<hours> ч назад"
    | CalendarDate(ms: int)    // toLocaleDateString of the entry's instant

  /** The bucket for an entry `diff` milliseconds old whose instant is `ms`. */
  function Classify(diff: int, ms: int): (r: TimeLabel)
    ensures r == JustNow <==> diff < MinuteMs
    ensures r.MinutesAgo? <==> MinuteMs <= diff < HourMs
    ensures r.HoursAgo? <==> HourMs <= diff < DayMs
    ensures r.CalendarDate? <==> DayMs <= diff
    ensures r.MinutesAgo? ==>
      1 <= r.minutes <= 59 && r.minutes * MinuteMs <= diff < (r.minutes + 1) * MinuteMs
    ensures r.HoursAgo? ==>
      1 <= r.hours <= 23 && r.hours * HourMs <= diff < (r.hours + 1) * HourMs
    ensures r.CalendarDate? ==> r.ms == ms
  {
    if diff < MinuteMs then JustNow
    else if diff < HourMs then MinutesAgo(diff / MinuteMs)
    else if diff < DayMs then HoursAgo(diff / HourMs)
    else CalendarDate(ms)
  }

  /** `formatTime` as written: `now - date` is a number only for a `Date`. For the
      text timestamp of a restored entry the difference is NaN, every comparison
      fails, and `toLocaleDateString` is called on a string, which throws a
      TypeError; `None` stands for that exception. */
  function FormatTimeAsWritten(now: int, stamp: Stamp): Option<TimeLabel>
  {
    match stamp
    case Instant(ms) => Some(Classify(now - ms, ms))
    case IsoText(_) => None
  }

  /** `formatTime` reading the instant of either form of timestamp, as `new Date(timestamp)` would. */
  function FormatTime(now: int, stamp: Stamp): (r: TimeLabel)
    ensures stamp.Instant? ==> FormatTimeAsWritten(now, stamp) == Some(r)
    ensures r == JustNow <==> now - stamp.ms < MinuteMs
  {
    Classify(now - stamp.ms, stamp.ms)
  }

  /** A restored entry cannot be formatted by the code as written, though its live original could. */
  lemma RestoredEntryBreaksFormatTime(now: int, e: HistoryEntry)
    requires e.timestamp.Instant?
    ensures FormatTimeAsWritten(now, e.timestamp).Some?
    ensures FormatTimeAsWritten(now, Freeze(e).timestamp) == None
  {
  }

  /** With the correction, a restored entry is labelled exactly as before it was stored. */
  lemma FormatTimeSurvivesRestore(now: int, e: HistoryEntry)
    ensures FormatTime(now, Freeze(e).timestamp) == FormatTime(now, e.timestamp)
  {
  }
}
