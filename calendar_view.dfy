/**
 * A day cell of the month grid: the day's first three jobs, a "+N more" line when
 * there are more, and the bad-weather icon. Generating the grid's days is outside
 * the model; a cell is computed from its `yyyy-MM-dd` date.
 */
module CalendarView {
  import opened Optional
  import opened Seqs
  import opened Records
  import opened Days

  /** What a cell shows: the jobs listed, the number after "+" (if the line shows) and the icon. */
  datatype Cell = Cell(shown: seq<Job>, more: Option<nat>, badWeather: bool)

  function DayCell(jobs: seq<Job>, markers: seq<Marker>, date: string): (c: Cell)
    ensures |c.shown| <= 3
    ensures c.shown <= JobsOn(jobs, date)
    ensures c.more.Some? <==> |JobsOn(jobs, date)| > 3
    ensures c.more.Some? ==> c.more.value == |JobsOn(jobs, date)| - 3
    ensures c.badWeather <==> exists d :: d in markers && d.date == date
  {
    var dayJobs := JobsOn(jobs, date);
    Cell(Take(dayJobs, 3), if |dayJobs| > 3 then Some(|dayJobs| - 3) else None, HasMarker(markers, date))
  }

  /** Nothing is lost from sight: the jobs listed plus the "+N" count make up the day's jobs. */
  lemma CellAccountsForDay(jobs: seq<Job>, markers: seq<Marker>, date: string)
    ensures var c := DayCell(jobs, markers, date);
      |c.shown| + c.more.GetOr(0) == |JobsOn(jobs, date)|
  {
  }
}
