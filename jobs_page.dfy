/**
 * The job list page: a search box and a filter tab select the jobs shown; the
 * tabs carry counts over the whole list. The dates `today`, `tomorrow` and the
 * week bounds are `yyyy-MM-dd` strings computed from the clock outside the model.
 */
module JobsPage {
  import opened Optional
  import opened Seqs
  import opened Text
  import opened Records
  import opened Days
  import Dashboard

  /** The reference dates the filters compare with. */
  datatype Dates = Dates(today: string, tomorrow: string, weekStart: string, weekEnd: string)

  /** `field?.toLowerCase().includes(search.toLowerCase())`: an unset field never matches. */
  predicate FieldMatches(field: Option<string>, search: string) {
    field.Some? && ContainsIgnoringCase(field.value, search)
  }

  /** The search box: empty matches every job, otherwise the name, address or technician must contain it. */
  predicate SearchMatches(job: Job, search: string) {
    search == [] ||
    FieldMatches(job.customerName, search) ||
    FieldMatches(job.customerAddress, search) ||
    FieldMatches(job.assignedTech, search)
  }

  /**
   * The filter switch. `week` compares the date strings with `>=` and `<=`, which
   * is false for a job without a date; `unconfirmed` has no date limit; `all` and
   * any other key keep the job.
   */
  predicate FilterKeeps(filter: string, d: Dates, job: Job) {
    match filter
    case "today" => job.scheduledDate == Some(d.today)
    case "tomorrow" => job.scheduledDate == Some(d.tomorrow)
    case "week" =>
      job.scheduledDate.Some? && LexLe(d.weekStart, job.scheduledDate.value) && LexLe(job.scheduledDate.value, d.weekEnd)
    case "lead" => job.status == Lead
    case "quoted" => job.status == Quoted
    case "scheduled" => job.status == Scheduled
    case "unconfirmed" => job.status == Scheduled && !job.customerConfirmed
    case "completed" => job.status == Completed
    case _ => true
  }

  /** The filter keys the switch knows. */
  const FilterKeys: seq<string> :=
    ["today", "tomorrow", "week", "lead", "quoted", "scheduled", "unconfirmed", "completed"]

  function Shown(search: string, filter: string, d: Dates): Job -> bool {
    (j: Job) => SearchMatches(j, search) && FilterKeeps(filter, d, j)
  }

  /** The jobs the page lists: those that pass the search and then the filter. */
  function FilteredJobs(jobs: seq<Job>, search: string, filter: string, d: Dates): (r: seq<Job>)
    ensures |r| <= |jobs|
    ensures forall j :: j in r <==> j in jobs && SearchMatches(j, search) && FilterKeeps(filter, d, j)
  {
    Filter(jobs, Shown(search, filter, d))
  }

  /** The listed jobs keep the order of the fetched list. */
  lemma FilteredInOrder(jobs: seq<Job>, search: string, filter: string, d: Dates)
    ensures Embeds(FilteredJobs(jobs, search, filter, d), jobs)
  {
    FilterEmbeds(jobs, Shown(search, filter, d));
  }

  /** With an empty search, `all` or an unknown key lists every job, in order. */
  lemma UnknownFilterKeepsAll(jobs: seq<Job>, filter: string, d: Dates)
    requires filter !in FilterKeys
    ensures FilteredJobs(jobs, "", filter, d) == jobs
  {
    FilterKeepsAll(jobs, Shown("", filter, d));
  }

  /** With an empty search, the today tab lists exactly the day's jobs of the calendar and the dashboard. */
  lemma TodayFilterIsDay(jobs: seq<Job>, d: Dates)
    ensures FilteredJobs(jobs, "", "today", d) == JobsOn(jobs, d.today)
    ensures FilteredJobs(jobs, "", "tomorrow", d) == JobsOn(jobs, d.tomorrow)
  {
    FilterExt(jobs, Shown("", "today", d), OnDate(d.today));
    FilterExt(jobs, Shown("", "tomorrow", d), OnDate(d.tomorrow));
  }

  /** With an empty search, a status tab lists exactly the jobs of that status. */
  lemma StatusFilterIsStatus(jobs: seq<Job>, filter: string, d: Dates)
    requires filter == Lead || filter == Quoted || filter == Scheduled || filter == Completed
    ensures FilteredJobs(jobs, "", filter, d) == WithStatus(jobs, filter)
  {
    if filter == Lead {
      FilterExt(jobs, Shown("", Lead, d), HasStatus(Lead));
    } else if filter == Quoted {
      FilterExt(jobs, Shown("", Quoted, d), HasStatus(Quoted));
    } else if filter == Scheduled {
      FilterExt(jobs, Shown("", Scheduled, d), HasStatus(Scheduled));
    } else {
      FilterExt(jobs, Shown("", Completed, d), HasStatus(Completed));
    }
  }

  /**
   * The unconfirmed tab has no date limit: it lists every unconfirmed job the
   * dashboard's alert lists for the next two days, and possibly more.
   */
  lemma UnconfirmedTabCoversAlerts(jobs: seq<Job>, d: Dates)
    ensures forall j :: j in Dashboard.UnconfirmedJobs(jobs, d.today, d.tomorrow) ==> j in FilteredJobs(jobs, "", "unconfirmed", d)
    ensures |Dashboard.UnconfirmedJobs(jobs, d.today, d.tomorrow)| <= |FilteredJobs(jobs, "", "unconfirmed", d)|
  {
    CountImplies(jobs, Dashboard.UnconfirmedSoonOf(d.today, d.tomorrow), Shown("", "unconfirmed", d));
  }

  /** A job is in the week tab exactly when its date lies between the week bounds, both included. */
  lemma WeekFilterIsRange(jobs: seq<Job>, d: Dates, date: string, j: Job)
    requires j in jobs && j.scheduledDate == Some(date)
    ensures j in FilteredJobs(jobs, "", "week", d) <==> LexLe(d.weekStart, date) && LexLe(date, d.weekEnd)
  {
  }

  /** The counts on the tabs; they count the whole fetched list and ignore the search. */
  datatype TabCounts = TabCounts(today: nat, tomorrow: nat, lead: nat, quoted: nat)

  function Counts(jobs: seq<Job>, d: Dates): (c: TabCounts)
    ensures c.today + c.tomorrow <= |jobs| || d.today == d.tomorrow
    ensures c.lead + c.quoted <= |jobs|
  {
    StatusCountsDisjoint(jobs, Lead, Quoted);
    var c := TabCounts(|JobsOn(jobs, d.today)|, |JobsOn(jobs, d.tomorrow)|, StatusCount(jobs, Lead), StatusCount(jobs, Quoted));
    if d.today != d.tomorrow then
      DaysDisjoint(jobs, d.today, d.tomorrow);
      c
    else c
  }

  /**
   * A tab's count is the length of its list with an empty search, and bounds the
   * list under any search.
   */
  lemma CountsBoundTabs(jobs: seq<Job>, search: string, d: Dates)
    ensures |FilteredJobs(jobs, search, "today", d)| <= Counts(jobs, d).today
    ensures |FilteredJobs(jobs, search, "tomorrow", d)| <= Counts(jobs, d).tomorrow
    ensures |FilteredJobs(jobs, search, "lead", d)| <= Counts(jobs, d).lead
    ensures |FilteredJobs(jobs, search, "quoted", d)| <= Counts(jobs, d).quoted
    ensures search == [] ==> |FilteredJobs(jobs, search, "today", d)| == Counts(jobs, d).today
    ensures search == [] ==> |FilteredJobs(jobs, search, "tomorrow", d)| == Counts(jobs, d).tomorrow
    ensures search == [] ==> |FilteredJobs(jobs, search, "lead", d)| == Counts(jobs, d).lead
    ensures search == [] ==> |FilteredJobs(jobs, search, "quoted", d)| == Counts(jobs, d).quoted
  {
    CountImplies(jobs, Shown(search, "today", d), OnDate(d.today));
    CountImplies(jobs, Shown(search, "tomorrow", d), OnDate(d.tomorrow));
    CountImplies(jobs, Shown(search, "lead", d), HasStatus(Lead));
    CountImplies(jobs, Shown(search, "quoted", d), HasStatus(Quoted));
    if search == [] {
      TodayFilterIsDay(jobs, d);
      StatusFilterIsStatus(jobs, Lead, d);
      StatusFilterIsStatus(jobs, Quoted, d);
    }
  }
}
