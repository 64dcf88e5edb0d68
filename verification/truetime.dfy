/** A clock that answers with an interval around true time. */
module TrueTime {
  import opened Types

  datatype TimeInterval = TimeInterval(earliest: Time, latest: Time)

  // What a correct clock may answer at true time `now`.
  ghost predicate ValidAt(reading: TimeInterval, now: Time) {
    UNIX_EPOCH <= reading.earliest <= now <= reading.latest
  }

  // The timestamp has definitely not arrived yet.
  predicate Before(timestamp: Time, reading: TimeInterval) { timestamp > reading.latest }

  // The timestamp has definitely passed.
  predicate After(timestamp: Time, reading: TimeInterval) { timestamp < reading.earliest }

  const UNCERTAINTY: Time := 7 * MILLISECOND

  /** The interval around one reading of the local clock. */
  function Now(local: Time): (reading: TimeInterval)
    ensures local >= UNCERTAINTY ==>
      forall now :: local - UNCERTAINTY <= now <= local + UNCERTAINTY <==> ValidAt(reading, now)
  {
    TimeInterval(local - UNCERTAINTY, local + UNCERTAINTY)
  }

  /** Polls until `time` has definitely passed; `readings` are the clock's successive answers. */
  method CommitWait(time: Time, readings: seq<TimeInterval>) returns (polls: nat)
    requires exists i :: 0 <= i < |readings| && After(time, readings[i])
    ensures polls < |readings| && After(time, readings[polls])
    ensures forall i :: 0 <= i < polls ==> !After(time, readings[i])
    ensures forall now :: ValidAt(readings[polls], now) ==> time < now
  {
    polls := 0;
    while !After(time, readings[polls])
      invariant polls < |readings|
      invariant forall i :: 0 <= i < polls ==> !After(time, readings[i])
      decreases |readings| - polls
    {
      polls := polls + 1;
    }
  }
}
