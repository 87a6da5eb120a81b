/**
 * The day and status selections several pages share: the jobs dated on a
 * `yyyy-MM-dd` day (`jobs.filter(j => j.scheduled_date === dateStr)`), whether a
 * bad-weather marker exists for a day (`badWeatherDays.some(d => d.date === date)`),
 * and the jobs in one status (`jobs.filter(j => j.status === s)`).
 */
module Days {
  import opened Optional
  import opened Seqs
  import opened Records

  function OnDate(date: string): Job -> bool {
    (j: Job) => j.scheduledDate == Some(date)
  }

  /** The jobs dated `date`, in list order; a job with no date is on no day. */
  function JobsOn(jobs: seq<Job>, date: string): (r: seq<Job>)
    ensures |r| <= |jobs|
    ensures forall j :: j in r <==> j in jobs && j.scheduledDate == Some(date)
  {
    Filter(jobs, OnDate(date))
  }

  /** A day's jobs keep the order of the job list. */
  lemma JobsOnInOrder(jobs: seq<Job>, date: string)
    ensures Embeds(JobsOn(jobs, date), jobs)
  {
    FilterEmbeds(jobs, OnDate(date));
  }

  /** A job is on at most one day: the jobs of two different days are disjoint and fit in the list together. */
  lemma {:induction false} DaysDisjoint(jobs: seq<Job>, a: string, b: string)
    requires a != b
    ensures |JobsOn(jobs, a)| + |JobsOn(jobs, b)| <= |jobs|
    decreases |jobs|
  {
    if jobs != [] {
      var jobs' := jobs[..|jobs| - 1];
      var j := jobs[|jobs| - 1];
      assert jobs == jobs' + [j];
      DaysDisjoint(jobs', a, b);
      CountAppend(jobs', j, OnDate(a));
      CountAppend(jobs', j, OnDate(b));
    }
  }

  function MarkerOn(date: string): Marker -> bool {
    (d: Marker) => d.date == date
  }

  /** Whether some marker has the date `date`; how many there are does not matter. */
  function HasMarker(markers: seq<Marker>, date: string): (b: bool)
    ensures b <==> exists d :: d in markers && d.date == date
  {
    Find(markers, MarkerOn(date)).Some?
  }

  function HasStatus(status: string): Job -> bool {
    (j: Job) => j.status == status
  }

  /** The jobs whose status is `status`, in list order. */
  function WithStatus(jobs: seq<Job>, status: string): (r: seq<Job>)
    ensures |r| <= |jobs|
    ensures forall j :: j in r <==> j in jobs && j.status == status
  {
    Filter(jobs, HasStatus(status))
  }

  /** `jobs.filter(j => j.status === status).length`. */
  function StatusCount(jobs: seq<Job>, status: string): (n: nat)
    ensures n <= |jobs|
    ensures n == 0 <==> forall j :: j in jobs ==> j.status != status
  {
    var r := WithStatus(jobs, status);
    assert r != [] ==> r[0] in r;
    |r|
  }

  /** Adding a job raises exactly the count of its own status. */
  lemma StatusCountAppend(jobs: seq<Job>, j: Job, status: string)
    ensures StatusCount(jobs + [j], status) == StatusCount(jobs, status) + (if j.status == status then 1 else 0)
  {
    CountAppend(jobs, j, HasStatus(status));
  }

  /** Two different statuses count disjoint jobs: together they never exceed the job total. */
  lemma {:induction false} StatusCountsDisjoint(jobs: seq<Job>, a: string, b: string)
    requires a != b
    ensures StatusCount(jobs, a) + StatusCount(jobs, b) <= |jobs|
    decreases |jobs|
  {
    if jobs != [] {
      var jobs' := jobs[..|jobs| - 1];
      var j := jobs[|jobs| - 1];
      assert jobs == jobs' + [j];
      StatusCountsDisjoint(jobs', a, b);
      StatusCountAppend(jobs', j, a);
      StatusCountAppend(jobs', j, b);
    }
  }
}
