/** The mood-history page: check-ins newest first in the table, oldest first
    in the chart, and a face for each rating. Dates are server timestamps
    in milliseconds. */
module MoodHistory {
  import opened Wrappers
  import Seqs
  import InnerWeatherSchema

  /** A loaded check-in, reduced to what the page shows. */
  datatype MoodEntry = MoodEntry(date: int, moodRating: int, stressLevel: int)

  /** Newest first: no later entry is more recent than an earlier one. */
  predicate Descending(s: seq<MoodEntry>) {
    forall i, j :: 0 <= i < j < |s| ==> s[i].date >= s[j].date
  }

  /** Places `x` into a newest-first list, ahead of the first entry not more
      recent than it (so among equal dates `x` comes first). */
  function Insert(x: MoodEntry, s: seq<MoodEntry>): (r: seq<MoodEntry>)
    requires Descending(s)
    ensures Descending(r)
    ensures multiset(r) == multiset(s) + multiset{x}
    ensures |r| == |s| + 1
    ensures r[0] == x || (|s| > 0 && r[0] == s[0])
  {
    if |s| == 0 || s[0].date <= x.date then
      [x] + s
    else
      assert s == [s[0]] + s[1..];
      var rest := Insert(x, s[1..]);
      assert s[0].date >= rest[0].date;
      [s[0]] + rest
  }

  /** The table order: the loaded entries sorted by date, newest first, by
      the comparison `b.date - a.date`. */
  function SortNewestFirst(entries: seq<MoodEntry>): (r: seq<MoodEntry>)
    ensures Descending(r)
    ensures multiset(r) == multiset(entries)
    ensures |r| == |entries|
  {
    if |entries| == 0 then []
    else
      assert entries == [entries[0]] + entries[1..];
      Insert(entries[0], SortNewestFirst(entries[1..]))
  }

  /** An already newest-first list is left as it is. */
  lemma {:induction false} SortKeepsSorted(entries: seq<MoodEntry>)
    requires Descending(entries)
    ensures SortNewestFirst(entries) == entries
  {
    if |entries| > 0 {
      var tail := entries[1..];
      assert Descending(tail);
      SortKeepsSorted(tail);
      assert |tail| == 0 || tail[0].date <= entries[0].date;
    }
  }

  /** One chart point. The axis label is the date formatted as "MMM d";
      formatting is not modelled, the date itself is kept. */
  datatype ChartPoint = ChartPoint(date: int, mood: int, stress: int)

  function ToPoint(e: MoodEntry): ChartPoint {
    ChartPoint(e.date, e.moodRating, e.stressLevel)
  }

  /** `chartData`: one point per table row, values copied unchanged, in the
      reverse of the table's order. */
  function ChartData(table: seq<MoodEntry>): (r: seq<ChartPoint>)
    ensures |r| == |table|
    ensures forall i :: 0 <= i < |r| ==>
      var e := table[|table| - 1 - i];
      r[i].mood == e.moodRating && r[i].stress == e.stressLevel && r[i].date == e.date
  {
    Seqs.Reverse(seq(|table|, i requires 0 <= i < |table| => ToPoint(table[i])))
  }

  /** The chart runs oldest to newest whenever the table runs newest to
      oldest. */
  lemma ChartIsChronological(table: seq<MoodEntry>)
    requires Descending(table)
    ensures forall i, j :: 0 <= i < j < |table| ==> ChartData(table)[i].date <= ChartData(table)[j].date
  {
    var r := ChartData(table);
    forall i, j | 0 <= i < j < |table|
      ensures r[i].date <= r[j].date
    {
      assert r[i].date == table[|table| - 1 - i].date;
      assert r[j].date == table[|table| - 1 - j].date;
    }
  }

  /** The page's two views of a load: the chart is the sorted table read
      backwards, so it is in ascending date order. */
  lemma ChartOfLoad(entries: seq<MoodEntry>)
    ensures var table := SortNewestFirst(entries);
      |ChartData(table)| == |entries|
      && forall i, j :: 0 <= i < j < |entries| ==> ChartData(table)[i].date <= ChartData(table)[j].date
  {
    ChartIsChronological(SortNewestFirst(entries));
  }

  /** The faces of the table. */
  datatype Face = Frown | Meh | Smile

  /** `moodIcons`: a face and a colour for each rating from 1 to 5. */
  function MoodIcon(rating: int): (r: Option<(Face, string)>)
    ensures r.Some? <==> 1 <= rating <= 5
    ensures r.Some? ==> (r.value.0 == Smile <==> rating >= 4) && (r.value.0 == Frown <==> rating <= 2)
  {
    if rating == 1 then Some((Frown, "text-red-500"))
    else if rating == 2 then Some((Frown, "text-orange-500"))
    else if rating == 3 then Some((Meh, "text-yellow-500"))
    else if rating == 4 then Some((Smile, "text-green-500"))
    else if rating == 5 then Some((Smile, "text-teal-500"))
    else None
  }

  /** Every rating the check-in form accepts has a face: the icon domain is
      exactly the form's mood range. */
  lemma AcceptedMoodHasIcon(f: InnerWeatherSchema.InnerWeatherForm)
    requires InnerWeatherSchema.InnerWeatherAccepts(f)
    ensures MoodIcon(f.moodRating.value).Some?
  {
    InnerWeatherSchema.InnerWeatherAcceptsIff(f);
  }
}
