/**
 * One mood log entry and how saving builds it from the clock reading `now`.
 * Instants are whole seconds on the local wall clock; a calendar date is the
 * number of whole days since the clock's origin.
 */
module Entries {
  import opened Options
  import opened Moods

  const SecondsPerHour: int := 3600
  const SecondsPerDay: int := 86400

  /** The slider offers 1..5, so no other intensity can be recorded. */
  type Intensity = i: int | 1 <= i <= 5 witness 3

  /** Calendar date of an instant (Euclidean division floors, as a date must). */
  function DayOf(t: int): int {
    t / SecondsPerDay
  }

  /** Hour-of-day of an instant. */
  function HourOf(t: int): (h: int)
    ensures 0 <= h < 24
    ensures DayOf(t) * SecondsPerDay + h * SecondsPerHour <= t < DayOf(t) * SecondsPerDay + (h + 1) * SecondsPerHour
  {
    (t % SecondsPerDay) / SecondsPerHour
  }

  datatype Entry = Entry(
    date: int,
    timestamp: int,
    hour: int,
    mood: Mood,
    moodCode: int,
    intensity: Intensity,
    reason: string)

  /** The derived fields agree with the timestamp and the mood. */
  predicate WellFormed(e: Entry) {
    && e.date == DayOf(e.timestamp)
    && e.hour == HourOf(e.timestamp)
    && e.moodCode == MoodCode(e.mood)
  }

  /** The entry that saving `mood`, `intensity` and `reason` at instant `now` records. */
  function NewEntry(mood: Mood, intensity: Intensity, reason: string, now: int): (e: Entry)
    ensures WellFormed(e)
    ensures e.timestamp == now && e.mood == mood && e.intensity == intensity && e.reason == reason
    ensures e.date * SecondsPerDay <= now < (e.date + 1) * SecondsPerDay
    ensures 0 <= e.hour < 24
    ensures e.date * SecondsPerDay + e.hour * SecondsPerHour <= now < e.date * SecondsPerDay + (e.hour + 1) * SecondsPerHour
    ensures 1 <= e.moodCode <= |MoodList| && MoodList[e.moodCode - 1] == mood
    ensures ReverseMoodMap(e.moodCode) == Some(mood)
  {
    Entry(DayOf(now), now, HourOf(now), mood, MoodCode(mood), intensity, reason)
  }
}
