/**
 * The session's mood log: created empty once per session and grown by one entry on
 * every save; saving also decides which list of motivational quotes to draw from.
 */
module Recording {
  import opened Moods
  import opened Entries
  import opened Weekly

  /** Which quote list a save draws from; the quote itself is a random pick. */
  datatype Greeting = MorningQuotes | EveningQuotes

  function GreetingFor(hour: int): Greeting {
    if 5 <= hour < 12 then MorningQuotes else EveningQuotes
  }

  /** Morning quotes exactly for saves between 05:00:00 and 11:59:59 on the clock. */
  lemma GreetingByClock(now: int)
    ensures GreetingFor(HourOf(now)) == MorningQuotes
            <==> 5 * SecondsPerHour <= now - DayOf(now) * SecondsPerDay < 12 * SecondsPerHour
  {
  }

  class MoodLog {
    /** Every entry saved in this session, oldest first. */
    var entries: seq<Entry>

    ghost predicate Valid()
      reads this
    {
      forall i :: 0 <= i < |entries| ==> WellFormed(entries[i])
    }

    constructor ()
      ensures Valid() && entries == []
    {
      entries := [];
    }

    /**
     * Save: builds the entry from `now`, appends it after every earlier entry (which
     * stay as they were) and picks the quote list by the hour of `now`.
     */
    method Save(mood: Mood, intensity: Intensity, reason: string, now: int) returns (e: Entry, greeting: Greeting)
      requires Valid()
      modifies this
      ensures Valid()
      ensures entries == old(entries) + [e]
      ensures e == NewEntry(mood, intensity, reason, now)
      ensures greeting == MorningQuotes <==> 5 <= e.hour < 12
    {
      e := NewEntry(mood, intensity, reason, now);
      assert WellFormed(e);
      entries := entries + [e];
      greeting := GreetingFor(e.hour);
    }

    /** The weekly insights view of the log as it stands, at instant `now`. */
    method Insights(now: int) returns (r: Report)
      ensures r == WeeklyReport(entries, now)
    {
      r := WeeklyReport(entries, now);
    }
  }
}
