/**
 * The fixed list of mood labels, the 1-based code of each label (mood_map) and its
 * inverse (reverse_mood_map), and the order in which the labels sort as strings.
 */
module Moods {
  import opened Options

  datatype Mood = Happy | Sad | Angry | Anxious | Energetic | Bored | Sleepy | Tired

  /** The labels in declaration order; a label's code is its position here plus one. */
  const MoodList: seq<Mood> := [Happy, Sad, Angry, Anxious, Energetic, Bored, Sleepy, Tired]

  /** The text the user sees and the key the report groups by. */
  function Label(m: Mood): string {
    match m
    case Happy => "Happy"
    case Sad => "Sad"
    case Angry => "Angry"
    case Anxious => "Anxious"
    case Energetic => "Energetic"
    case Bored => "Bored"
    case Sleepy => "Sleepy"
    case Tired => "Tired"
  }

  predicate Distinct<T(==)>(xs: seq<T>) {
    forall i, j :: 0 <= i < j < |xs| ==> xs[i] != xs[j]
  }

  /** Position of the first occurrence of `x` in `xs`. */
  function IndexOf<T(==)>(xs: seq<T>, x: T): (i: nat)
    requires x in xs
    ensures i < |xs| && xs[i] == x
    ensures forall j :: 0 <= j < i ==> xs[j] != x
  {
    if xs[0] == x then 0 else 1 + IndexOf(xs[1..], x)
  }

  lemma MoodListNamesEveryMood(m: Mood)
    ensures m in MoodList
  {
  }

  /** mood_map: the 1-based position of `m` in the label list. */
  function MoodCode(m: Mood): (c: int)
    ensures 1 <= c <= |MoodList| && MoodList[c - 1] == m
  {
    MoodListNamesEveryMood(m);
    IndexOf(MoodList, m) + 1
  }

  /** reverse_mood_map: defined on the codes 1..8 only; any other key misses. */
  function ReverseMoodMap(c: int): (r: Option<Mood>)
    ensures r.Some? <==> 1 <= c <= |MoodList|
  {
    if 1 <= c <= |MoodList| then Some(MoodList[c - 1]) else None
  }

  lemma MoodListDistinct()
    ensures Distinct(MoodList)
  {
  }

  /** The reverse map undoes the code of every mood. */
  lemma ReverseOfCode(m: Mood)
    ensures ReverseMoodMap(MoodCode(m)) == Some(m)
  {
  }

  /** The code map undoes the reverse map on every code it defines. */
  lemma CodeOfReverse(c: int)
    requires 1 <= c <= |MoodList|
    ensures ReverseMoodMap(c).Some? && MoodCode(ReverseMoodMap(c).value) == c
  {
  }

  /** Strict lexicographic order of strings by character code. */
  predicate LexLess(a: string, b: string) {
    if a == [] then b != []
    else if b == [] then false
    else if a[0] != b[0] then a[0] < b[0]
    else LexLess(a[1..], b[1..])
  }

  /** The labels sorted as strings: the order in which grouping by label lists the moods. */
  const LabelOrder: seq<Mood> := [Angry, Anxious, Bored, Energetic, Happy, Sad, Sleepy, Tired]

  lemma LabelOrderSorted()
    ensures forall i :: 0 <= i < |LabelOrder| - 1 ==> LexLess(Label(LabelOrder[i]), Label(LabelOrder[i + 1]))
  {
    assert LexLess("Angry", "Anxious");
    assert LexLess("Anxious", "Bored");
    assert LexLess("Bored", "Energetic");
    assert LexLess("Energetic", "Happy");
    assert LexLess("Happy", "Sad");
    assert LexLess("Sad", "Sleepy");
    assert LexLess("Sleepy", "Tired");
  }

  /** LabelOrder lists every mood exactly once. */
  lemma LabelOrderIsPermutation(m: Mood)
    ensures m in LabelOrder && Distinct(LabelOrder)
  {
  }

  /** Position of a mood when the labels are sorted as strings. */
  function LabelRank(m: Mood): (r: nat)
    ensures r < |LabelOrder| && LabelOrder[r] == m
  {
    LabelOrderIsPermutation(m);
    IndexOf(LabelOrder, m)
  }
}
