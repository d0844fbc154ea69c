/**
 * The weekly insights view: the entries of the last seven days and what is derived
 * from them (mean intensity per date, intensity summed per mood, the dominant mood
 * and the notes). Everything here reads the log and never changes it.
 */
module Weekly {
  import opened Options
  import opened Moods
  import opened Groups
  import opened Entries

  const SecondsPerWeek: int := 7 * SecondsPerDay

  /** An entry belongs to the week ending at `now` when it is no older than seven days. */
  predicate InWindow(now: int, e: Entry) {
    e.timestamp >= now - SecondsPerWeek
  }

  function InWindowAt(now: int): Entry -> bool {
    e => InWindow(now, e)
  }

  /** The entries of the week ending at `now`, in log order. */
  function Window(log: seq<Entry>, now: int): (w: seq<Entry>)
    ensures |w| <= |log|
    ensures forall e :: e in w <==> e in log && e.timestamp >= now - SecondsPerWeek
  {
    Filter(log, InWindowAt(now))
  }

  /** The window of a concatenation is the concatenation of the windows: order is kept. */
  lemma WindowConcat(a: seq<Entry>, b: seq<Entry>, now: int)
    ensures Window(a + b, now) == Window(a, now) + Window(b, now)
  {
    FilterConcat(a, b, InWindowAt(now));
  }

  // Column accessors the report groups and sums by.
  function DayKey(e: Entry): int { DayOf(e.timestamp) }
  function MoodKey(e: Entry): Mood { e.mood }
  function IntensityOf(e: Entry): int { e.intensity }
  function One(e: Entry): int { 1 }

  /** Intensity total and entry count of one date: the mean is their quotient. */
  datatype DayMean = DayMean(total: int, count: int) {
    function Value(): real
      requires count > 0
    {
      total as real / count as real
    }
  }

  /**
   * Mean intensity per calendar date of `w`: one entry per date that occurs in `w`,
   * holding the total and the count of the intensities recorded on that date.
   */
  function DailyMeans(w: seq<Entry>): (means: map<int, DayMean>)
    ensures means.Keys == set e | e in w :: DayOf(e.timestamp)
    ensures forall d :: d in means ==>
              && means[d].total == SumWhere(w, DayKey, d, IntensityOf)
              && means[d].count == SumWhere(w, DayKey, d, One)
  {
    var totals := GroupSum(w, DayKey, IntensityOf);
    var counts := GroupSum(w, DayKey, One);
    GroupSumCorrect(w, DayKey, IntensityOf);
    GroupSumCorrect(w, DayKey, One);
    map d | d in totals :: DayMean(totals[d], counts[d])
  }

  /** On any date, count <= total <= 5 * count, and a date that occurs has count >= 1. */
  lemma {:induction false} DayTotalsBounded(w: seq<Entry>, d: int)
    ensures SumWhere(w, DayKey, d, One) <= SumWhere(w, DayKey, d, IntensityOf) <= 5 * SumWhere(w, DayKey, d, One)
    ensures d in KeysOf(w, DayKey) ==> SumWhere(w, DayKey, d, One) >= 1
  {
    if w != [] {
      DayTotalsBounded(w[1..], d);
      KeysOfCons(w, DayKey);
    }
  }

  /** A total between count and 5 * count has a quotient between 1 and 5. */
  lemma QuotientBetween(t: int, c: int)
    requires 0 < c && c <= t <= 5 * c
    ensures 1.0 <= t as real / c as real <= 5.0
  {
  }

  /** Every daily mean has at least one entry behind it and lies between 1 and 5. */
  lemma DailyMeanInRange(w: seq<Entry>, d: int)
    requires d in DailyMeans(w)
    ensures DailyMeans(w)[d].count >= 1
    ensures 1.0 <= DailyMeans(w)[d].Value() <= 5.0
  {
    DayTotalsBounded(w, d);
    var m := DailyMeans(w)[d];
    QuotientBetween(m.total, m.count);
  }

  /**
   * Intensity summed per mood over `w` (a weighted distribution, not a count): one
   * entry per mood that occurs in `w`.
   */
  function MoodScores(w: seq<Entry>): (scores: map<Mood, int>)
    ensures scores.Keys == set e | e in w :: e.mood
    ensures forall m :: m in scores ==> scores[m] == SumWhere(w, MoodKey, m, IntensityOf)
  {
    GroupSumCorrect(w, MoodKey, IntensityOf);
    GroupSum(w, MoodKey, IntensityOf)
  }

  /** The per-mood scores add up to the total intensity of `w`. */
  lemma ScoresAddUpToTotal(w: seq<Entry>)
    ensures SumOver(LabelOrder, MoodScores(w)) == Total(w, IntensityOf)
  {
    LabelOrderIsPermutation(Happy);
    forall i | 0 <= i < |w| ensures MoodKey(w[i]) in LabelOrder {
      LabelOrderIsPermutation(w[i].mood);
    }
    GroupSumTotal(LabelOrder, w, MoodKey, IntensityOf);
  }

  /** A mood that occurs scores at least the number of its entries, so at least 1. */
  lemma {:induction false} ScoreAtLeastCount(w: seq<Entry>, m: Mood)
    ensures SumWhere(w, MoodKey, m, IntensityOf) >= SumWhere(w, MoodKey, m, One) >= 0
    ensures m in KeysOf(w, MoodKey) ==> SumWhere(w, MoodKey, m, One) >= 1
  {
    if w != [] {
      ScoreAtLeastCount(w[1..], m);
      KeysOfCons(w, MoodKey);
    }
  }

  /**
   * The mood with the largest score. Ties go to the label that sorts first, which is
   * the first maximum when the scores are listed by label.
   */
  function Dominant(w: seq<Entry>): (m: Mood)
    requires w != []
    ensures exists e :: e in w && e.mood == m
    ensures forall e :: e in w ==> MoodScores(w)[e.mood] <= MoodScores(w)[m]
    ensures forall m' :: m' in MoodScores(w) && LabelRank(m') < LabelRank(m) ==> MoodScores(w)[m'] < MoodScores(w)[m]
  {
    var scores := MoodScores(w);
    LabelOrderIsPermutation(w[0].mood);
    assert LabelOrder[LabelRank(w[0].mood)] in scores;
    var r := FirstMax(LabelOrder, scores);
    forall e | e in w ensures e.mood in LabelOrder {
      LabelOrderIsPermutation(e.mood);
    }
    r.value
  }

  predicate HasReason(e: Entry) {
    e.reason != ""
  }

  /** The entries of `w` that carry a note, in the order of `w`. */
  function Notes(w: seq<Entry>): (notes: seq<Entry>)
    ensures forall e :: e in notes <==> e in w && e.reason != ""
  {
    Filter(w, HasReason)
  }

  lemma NotesConcat(a: seq<Entry>, b: seq<Entry>)
    ensures Notes(a + b) == Notes(a) + Notes(b)
  {
    FilterConcat(a, b, HasReason);
  }

  datatype Report =
    | NoData
    | NoEntriesThisWeek
    | Insights(dailyMeans: map<int, DayMean>, moodScores: map<Mood, int>, dominant: Mood, notes: seq<Entry>)

  /**
   * The weekly insights view at instant `now`: an empty log and an empty week are two
   * different outcomes, and the aggregates exist only when the week has entries.
   */
  function WeeklyReport(log: seq<Entry>, now: int): (r: Report)
    ensures r.NoData? <==> log == []
    ensures r.NoEntriesThisWeek? <==> log != [] && Window(log, now) == []
    ensures r.Insights? <==> Window(log, now) != []
    ensures r.Insights? ==>
              && r.dailyMeans == DailyMeans(Window(log, now))
              && r.moodScores == MoodScores(Window(log, now))
              && r.notes == Notes(Window(log, now))
    ensures r.Insights? ==>
              && r.dominant in r.moodScores
              && forall m :: m in r.moodScores ==> r.moodScores[m] <= r.moodScores[r.dominant]
  {
    if log == [] then NoData
    else
      var w := Window(log, now);
      if w == [] then NoEntriesThisWeek
      else Insights(DailyMeans(w), MoodScores(w), Dominant(w), Notes(w))
  }

  /** An entry exactly seven days old is in the week; one a second older is not. */
  lemma WindowBoundary(now: int, edge: Entry, older: Entry)
    requires edge.timestamp == now - SecondsPerWeek
    requires older.timestamp == now - SecondsPerWeek - 1
    ensures Window([edge, older], now) == [edge]
  {
    assert [edge, older] == [edge] + [older];
    WindowConcat([edge], [older], now);
  }

  /** Happy 5, Sad 3, Happy 1: Happy scores 6 and Sad 3. */
  lemma ExampleScores(x: Entry, y: Entry, z: Entry)
    requires x.mood == Happy && x.intensity == 5
    requires y.mood == Sad && y.intensity == 3
    requires z.mood == Happy && z.intensity == 1
    ensures MoodScores([x, y, z]) == map[Happy := 6, Sad := 3]
  {
    assert [x, y, z][1..] == [y, z] && [y, z][1..] == [z] && [z][1..] == [];
    assert GroupSum([z], MoodKey, IntensityOf) == map[Happy := 1];
    assert GroupSum([y, z], MoodKey, IntensityOf) == map[Happy := 1, Sad := 3];
    assert GroupSum([x, y, z], MoodKey, IntensityOf) == map[Happy := 6, Sad := 3];
  }

  /** With the scores above, the dominant mood is Happy. */
  lemma DominantExample(x: Entry, y: Entry, z: Entry)
    requires x.mood == Happy && x.intensity == 5
    requires y.mood == Sad && y.intensity == 3
    requires z.mood == Happy && z.intensity == 1
    ensures Dominant([x, y, z]) == Happy
  {
    ExampleScores(x, y, z);
    var m := Dominant([x, y, z]);
    assert m == Happy || m == Sad;
  }

  /** Appending an entry of the week appends it to the window. */
  lemma WindowAfterAppend(log: seq<Entry>, e: Entry, now: int)
    requires e.timestamp >= now - SecondsPerWeek
    ensures Window(log + [e], now) == Window(log, now) + [e]
  {
    WindowConcat(log, [e], now);
    assert [e][1..] == [];
  }

  /** The last entry of a window adds its intensity to its mood's score. */
  lemma {:induction false} ScoreOfLast(w0: seq<Entry>, e: Entry)
    ensures e.mood in MoodScores(w0 + [e]) && MoodScores(w0 + [e])[e.mood] >= e.intensity
  {
    assert e in w0 + [e];
    SumWhereConcat(w0, [e], MoodKey, e.mood, IntensityOf);
    ScoreAtLeastCount(w0, e.mood);
    assert [e][1..] == [];
  }

  /**
   * A noted entry saved at most seven days before `now` is shown last among the
   * week's notes, after the notes shown before it was saved.
   */
  lemma SavedNoteShown(log: seq<Entry>, e: Entry, now: int)
    requires e.timestamp >= now - SecondsPerWeek && e.reason != ""
    ensures Notes(Window(log + [e], now)) == Notes(Window(log, now)) + [e]
  {
    WindowAfterAppend(log, e, now);
    NotesConcat(Window(log, now), [e]);
    assert [e][1..] == [];
  }

  /**
   * An entry saved at most seven days before `now` shows up in the report at `now`:
   * the view has insights and the entry's mood has a score of at least its intensity.
   */
  lemma SavedEntryReported(log: seq<Entry>, e: Entry, now: int)
    requires e.timestamp >= now - SecondsPerWeek
    ensures WeeklyReport(log + [e], now).Insights?
    ensures e.mood in WeeklyReport(log + [e], now).moodScores
    ensures WeeklyReport(log + [e], now).moodScores[e.mood] >= e.intensity
  {
    WindowAfterAppend(log, e, now);
    ScoreOfLast(Window(log, now), e);
  }
}
