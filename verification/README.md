# Moodly mood log and weekly insights, modelled in Dafny

Moodly is a small mood-tracking dashboard. The user picks one of eight mood labels,
an intensity from 1 to 5 and an optional note. Pressing Save records an entry in a
list that lives for the session and shows a motivational quote: a morning one
between 05:00 and 12:00, an evening one otherwise. The Weekly Insights view keeps the
entries of the last seven days. From those it shows the mean intensity per calendar
date, the intensity summed per mood (a distribution weighted by intensity, not a
count), the dominant mood and the notes. An empty log and a log with nothing in the
last week give two different messages.

The model is split by concern:

- `options.dfy` (`Options`): an optional value.
- `moods.dfy` (`Moods`): the eight labels, `mood_map` (`MoodCode`), `reverse_mood_map`
  (`ReverseMoodMap`) and the order in which the labels sort as strings.
- `groups.dfy` (`Groups`): the collection operations the report uses, written once and
  generically. `Filter` keeps rows in order, `GroupSum` is a group-by-and-sum, and
  `FirstMax` is an arg-max that takes the first maximum.
- `entries.dfy` (`Entries`): an entry, clock arithmetic, and the entry a save builds.
- `weekly.dfy` (`Weekly`): the weekly window, the aggregates and the report. All of it
  is pure: the report reads the log and never changes it.
- `recording.dfy` (`Recording`): the session log as a class `MoodLog` whose `Save`
  appends. It also holds the choice of quote list.

Instants are whole seconds on the local wall clock. A calendar date is `t / 86400`
(Euclidean division, so it floors) and the hour is `(t % 86400) / 3600`. A daily mean is
kept as a (total, count) pair; `DayMean.Value` gives it as an exact `real`.

The source's window test is only `timestamp >= now - 7 days`; it has no upper bound at
`now`. The model follows the code, so an entry stamped after `now` would be kept.

The dominant mood is the arg-max of the per-mood sums. Grouping by label lists the
moods in string order, and the arg-max takes the first maximum. The model uses that
rule: among moods with the top score, the one whose label sorts first wins
(`LabelOrder`, proved sorted by `LabelOrderSorted`).

## Model

| member | source | states |
|---|---|---|
| `Moods.MoodCode` | moodly.py:12-13 | the code of a mood is its 1-based position in the fixed list of eight labels |
| `Moods.MoodListDistinct` | moodly.py:12 | the eight labels are pairwise different, so no two moods share a code |
| `Moods.ReverseMoodMap` | moodly.py:14 | the reverse map is defined exactly on the codes 1..8 |
| `Moods.ReverseOfCode` | moodly.py:12-14 | the reverse map sends every mood's code back to that mood |
| `Moods.CodeOfReverse` | moodly.py:12-14 | on every code 1..8, coding the reversed mood gives the code back, so the two maps are exact inverses |
| `Moods.LabelOrderSorted` | moodly.py:113 | the label order the groups come out in is the strict string order of the labels |
| `Moods.LabelOrderIsPermutation` | moodly.py:113 | that order lists every mood, each once |
| `Moods.LabelRank` | moodly.py:113 | each mood has one position in the label order |
| `Entries.HourOf` | moodly.py:60 | the hour is in 0..23 and the instant falls inside that hour of its date |
| `Entries.NewEntry` | moodly.py:56-65 | the saved entry carries `now` as timestamp and the given mood, intensity and reason; its date is the day containing `now`; its hour is the hour containing `now`; its code is the mood's 1-based position, and the reverse map gives the mood back |
| `Recording.MoodLog.constructor` | moodly.py:37-38 | the session log starts empty |
| `Recording.MoodLog.Save` | moodly.py:55-73 | saving appends exactly the new entry after the unchanged earlier ones, keeps every entry well formed, and picks morning quotes iff the entry's hour is in 5..11 |
| `Recording.GreetingByClock` | moodly.py:70-73 | morning quotes are chosen exactly when the save happens between 05:00:00 and 11:59:59 of its day |
| `Recording.MoodLog.Insights` | moodly.py:76-134 | the insights view is the weekly report of the log as it stands |
| `Groups.Filter` | moodly.py:85 | a filter keeps exactly the elements that satisfy the condition |
| `Groups.FilterConcat` | moodly.py:85 | filtering commutes with concatenation, so kept elements stay in their original order |
| `Groups.GroupSumCorrect` | moodly.py:113 | group-by-and-sum has one key per key that occurs, holding the sum of the column over that key's rows |
| `Groups.GroupSumTotal` | moodly.py:113 | summing the group sums over a list naming each key once gives the column's total |
| `Groups.FirstMax` | moodly.py:122 | the arg-max is a listed key of the map, its value is at least every other listed key's, and every key listed before it has a strictly smaller value; it is absent only when no listed key is in the map |
| `Weekly.Window` | moodly.py:84-85 | an entry is in the window iff it is in the log and its timestamp is at or after `now` minus seven days |
| `Weekly.WindowConcat` | moodly.py:85 | the window keeps log order: the window of a concatenation is the concatenation of the windows |
| `Weekly.WindowBoundary` | moodly.py:84-85 | the bound is inclusive and exact to the second: an entry exactly seven days old is kept, one a second older is not |
| `Weekly.DailyMeans` | moodly.py:90-93 | the dates with a mean are exactly the dates of window entries; each holds the sum and the count of that date's intensities |
| `Weekly.DayTotalsBounded` | moodly.py:93 | on every date, count <= total <= 5 * count, and a date that occurs has at least one entry |
| `Weekly.DailyMeanInRange` | moodly.py:90-93 | every daily mean has a nonzero count and lies between 1 and 5 |
| `Weekly.MoodScores` | moodly.py:113 | the moods with a score are exactly the moods in the window; each score is the sum, not the count, of that mood's intensities |
| `Weekly.ScoresAddUpToTotal` | moodly.py:113 | the scores of all moods add up to the window's total intensity |
| `Weekly.ScoreAtLeastCount` | moodly.py:113 | a mood's score is at least its number of entries, so every mood in the window scores at least 1 |
| `Weekly.Dominant` | moodly.py:122 | the dominant mood occurs in the window, its score is at least every other mood's, and every mood whose label sorts before it scores strictly less |
| `Weekly.ExampleScores` | moodly.py:113 | entries (Happy 5), (Sad 3), (Happy 1) score Happy 6 and Sad 3 |
| `Weekly.DominantExample` | moodly.py:122 | for those entries the dominant mood is Happy |
| `Weekly.Notes` | moodly.py:131-134 | the notes are exactly the window entries with a non-empty reason |
| `Weekly.NotesConcat` | moodly.py:132-134 | notes keep window order |
| `Weekly.WeeklyReport` | moodly.py:79-134 | an empty log gives "no data yet"; a non-empty log with an empty window gives "no entries for the past week"; otherwise the report holds the window's daily means, mood scores and notes, and a dominant mood that has a score and scores highest |
| `Weekly.WindowAfterAppend` | moodly.py:84-85 | appending an entry at most seven days old to the log appends it to the window |
| `Weekly.ScoreOfLast` | moodly.py:113 | the last entry of a window gives its mood a score of at least its intensity |
| `Weekly.SavedEntryReported` | moodly.py:79-123 | after appending an entry at most seven days old, the report at `now` has insights and the entry's mood scores at least the entry's intensity |
| `Weekly.SavedNoteShown` | moodly.py:131-134 | after appending a noted entry at most seven days old, the week's notes are the earlier notes followed by it |

## Left out

- `notifications.py` is not part of this model. It only registers two daily reminders
  with a scheduling library, calls OS notification functions and polls forever.
- Page rendering, widgets, banners and every chart (kinds, colours, percentages, axes)
  are left out. The model stops at the data handed to them.
- Which quote is shown is a random pick. The model says only which list it is drawn
  from. The weekly motivation line and the pie colours are random too and are left out.
- The clock reading `datetime.now()` is the parameter `now`. Sub-second precision, time
  zones and daylight-saving changes are not modelled; instants are whole local seconds.
- ISO date and timestamp strings and their parsing are replaced by integers.
- Means are exact (sum, count) pairs or `real` quotients, not floating point.
- Weekly.DailyMeans: a map keyed by date; the date order in which the series is
  plotted is not modelled.
- Weekly.Dominant: the tie rule (label sorting first wins) is the library's grouping
  and arg-max behaviour, which the source does not spell out. The model fixes it as
  its documented rule.
- Intensity is the subset type 1..5, because the slider cannot produce anything else.
  A mood is one of the eight labels for the same reason.
