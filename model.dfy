/** The stopwatch record: the timestamps of every start, stop and lap
    event of one session, and a display name. It is a plain value with
    default field values and no behaviour of its own. */
module StopwatchModel {

  /** A point in wall-clock time, in milliseconds. */
  type Date = int

  /** A signed difference of two dates, in milliseconds. */
  type Duration = int

  const DefaultName: string := "Name"

  datatype Stopwatch = Stopwatch(
    startTimes: seq<Date>,
    stopTimes: seq<Date>,
    lapTimes: seq<Date>,
    name: string)

  /** `Stopwatch()` with every field at its default value. */
  function NewStopwatch(): (s: Stopwatch)
    ensures s.startTimes == [] && s.stopTimes == [] && s.lapTimes == []
    ensures s.name == "Name"
  {
    Stopwatch([], [], [], DefaultName)
  }

  /** The last element of a non-empty sequence (Swift's `last!`). */
  function Last(s: seq<Date>): (r: Date)
    requires |s| > 0
    ensures r in s
  {
    s[|s| - 1]
  }
}
