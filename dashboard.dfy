/**
 * The dashboard's figures, all computed from the fetched record lists: the jobs
 * of today and tomorrow, the lead and quoted counts, the unread badge, the
 * revenue of the current month, the unconfirmed jobs of the next two days and
 * whether the alert block shows. `today` and `tomorrow` are `yyyy-MM-dd`
 * strings, and the current month is the window `[monthStart, monthEnd)` of
 * creation times; computing them from the clock is outside the model.
 */
module Dashboard {
  import opened Optional
  import opened Seqs
  import opened Records
  import opened Days
  import Inbox

  /** The message query of the dashboard keeps the messages not yet read. */
  predicate NotRead(m: Message) {
    !m.isRead
  }

  /** The unread badge: the fetched messages that are inbound and not read. */
  function UnreadMessages(fetched: seq<Message>): (n: nat)
    ensures n <= |fetched|
    ensures n == 0 <==> forall m :: m in fetched ==> !IsUnreadInbound(m)
  {
    var r := Filter(fetched, IsUnreadInbound);
    assert r != [] ==> r[0] in r;
    |r|
  }

  /**
   * When the query returns every message not yet read, the dashboard badge equals
   * the inbox header total over the whole message log.
   */
  lemma UnreadMatchesInbox(msgs: seq<Message>, customers: seq<Customer>, jobs: seq<Job>)
    ensures UnreadMessages(Filter(msgs, NotRead)) == SumOf(Inbox.Conversations(msgs, customers, jobs), Inbox.UnreadOf)
  {
    CountFiltered(msgs, NotRead, IsUnreadInbound);
    Inbox.UnreadTotal(msgs, customers, jobs);
  }

  /** A completed job created within the month window. */
  predicate CompletedIn(monthStart: nat, monthEnd: nat, j: Job) {
    j.status == Completed && monthStart <= j.created < monthEnd
  }

  function CompletedInMonth(monthStart: nat, monthEnd: nat): Job -> bool {
    (j: Job) => CompletedIn(monthStart, monthEnd, j)
  }

  /** The revenue card: the worth of the jobs completed and created this month. */
  function MonthlyRevenue(jobs: seq<Job>, monthStart: nat, monthEnd: nat): int {
    TotalValue(Filter(jobs, CompletedInMonth(monthStart, monthEnd)))
  }

  /**
   * A further job adds its worth (`final_price || price_estimate || 0`, so a final
   * price of 0 falls back to the estimate) when it was completed and created this
   * month, and nothing otherwise.
   */
  lemma MonthlyRevenueAppend(jobs: seq<Job>, j: Job, monthStart: nat, monthEnd: nat)
    ensures MonthlyRevenue(jobs + [j], monthStart, monthEnd) ==
      MonthlyRevenue(jobs, monthStart, monthEnd) +
      (if CompletedIn(monthStart, monthEnd, j) then
         (if Truthy(j.finalPrice) then j.finalPrice.value
          else if Truthy(j.priceEstimate) then j.priceEstimate.value
          else 0)
       else 0)
  {
    var p := CompletedInMonth(monthStart, monthEnd);
    assert (jobs + [j])[..|jobs + [j]| - 1] == jobs;
    if p(j) {
      var r := Filter(jobs, p) + [j];
      assert r[..|r| - 1] == Filter(jobs, p);
    }
  }

  /** The revenue of a list split in two is the sum of the revenues of the parts. */
  lemma {:induction false} MonthlyRevenueConcat(a: seq<Job>, b: seq<Job>, monthStart: nat, monthEnd: nat)
    ensures MonthlyRevenue(a + b, monthStart, monthEnd) ==
      MonthlyRevenue(a, monthStart, monthEnd) + MonthlyRevenue(b, monthStart, monthEnd)
    decreases |b|
  {
    if b == [] {
      assert a + b == a;
    } else {
      var b' := b[..|b| - 1];
      var j := b[|b| - 1];
      assert b == b' + [j];
      assert a + b == (a + b') + [j];
      MonthlyRevenueConcat(a, b', monthStart, monthEnd);
      MonthlyRevenueAppend(a + b', j, monthStart, monthEnd);
      MonthlyRevenueAppend(b', j, monthStart, monthEnd);
    }
  }

  /** A scheduled job the customer has not confirmed, dated today or tomorrow. */
  predicate UnconfirmedSoon(today: string, tomorrow: string, j: Job) {
    j.status == Scheduled && !j.customerConfirmed &&
    (j.scheduledDate == Some(today) || j.scheduledDate == Some(tomorrow))
  }

  function UnconfirmedSoonOf(today: string, tomorrow: string): Job -> bool {
    (j: Job) => UnconfirmedSoon(today, tomorrow, j)
  }

  /** The unconfirmed jobs of the next two days, in list order. */
  function UnconfirmedJobs(jobs: seq<Job>, today: string, tomorrow: string): (r: seq<Job>)
    ensures forall j :: j in r <==>
      j in jobs && j.status == Scheduled && !j.customerConfirmed &&
      (j.scheduledDate == Some(today) || j.scheduledDate == Some(tomorrow))
  {
    Filter(jobs, UnconfirmedSoonOf(today, tomorrow))
  }

  /** The unconfirmed jobs are among the scheduled ones, so the lead and quoted counts leave room for them. */
  lemma UnconfirmedAmongScheduled(jobs: seq<Job>, today: string, tomorrow: string)
    ensures |UnconfirmedJobs(jobs, today, tomorrow)| <= StatusCount(jobs, Scheduled)
    ensures |UnconfirmedJobs(jobs, today, tomorrow)| + StatusCount(jobs, Lead) + StatusCount(jobs, Quoted) <= |jobs|
  {
    CountImplies(jobs, UnconfirmedSoonOf(today, tomorrow), HasStatus(Scheduled));
    ThreeStatuses(jobs);
  }

  /** The lead, quoted and scheduled jobs are disjoint. */
  lemma {:induction false} ThreeStatuses(jobs: seq<Job>)
    ensures StatusCount(jobs, Lead) + StatusCount(jobs, Quoted) + StatusCount(jobs, Scheduled) <= |jobs|
    decreases |jobs|
  {
    if jobs != [] {
      var jobs' := jobs[..|jobs| - 1];
      var j := jobs[|jobs| - 1];
      assert jobs == jobs' + [j];
      ThreeStatuses(jobs');
      StatusCountAppend(jobs', j, Lead);
      StatusCountAppend(jobs', j, Quoted);
      StatusCountAppend(jobs', j, Scheduled);
    }
  }

  /** The alert block shows when a job awaits confirmation or today or tomorrow is marked bad weather. */
  function ShowsAlerts(jobs: seq<Job>, markers: seq<Marker>, today: string, tomorrow: string): (b: bool)
    ensures b <==>
      (exists j :: j in jobs && UnconfirmedSoon(today, tomorrow, j)) ||
      (exists d :: d in markers && (d.date == today || d.date == tomorrow))
  {
    var r := UnconfirmedJobs(jobs, today, tomorrow);
    assert r != [] ==> r[0] in r;
    |r| > 0 || HasMarker(markers, today) || HasMarker(markers, tomorrow)
  }

  /** The today card lists the first five of today's jobs, in list order. */
  function TodayList(jobs: seq<Job>, today: string): (r: seq<Job>)
    ensures |r| <= 5
    ensures r <= JobsOn(jobs, today)
    ensures |JobsOn(jobs, today)| <= 5 ==> r == JobsOn(jobs, today)
    ensures |JobsOn(jobs, today)| > 5 ==> r == JobsOn(jobs, today)[..5]
  {
    Take(JobsOn(jobs, today), 5)
  }

  /** The recent-leads card lists the first five leads, in list order. */
  function RecentLeads(jobs: seq<Job>): (r: seq<Job>)
    ensures |r| <= 5
    ensures r <= WithStatus(jobs, Lead)
    ensures forall j :: j in r ==> j in jobs && j.status == Lead
    ensures StatusCount(jobs, Lead) <= 5 ==> r == WithStatus(jobs, Lead)
    ensures StatusCount(jobs, Lead) > 5 ==> r == WithStatus(jobs, Lead)[..5]
  {
    Take(WithStatus(jobs, Lead), 5)
  }
}
