/**
 * The schedule of one calendar day: the day's jobs sorted by start time, with
 * each job's badges, price and action buttons.
 *
 * The comparator answers "after" for any job without a start time, even against
 * another such job, so it is not a consistent order. The model takes the order a
 * stable insertion sort produces with it: the jobs with a start time first,
 * ascending by the start time string, then the jobs without one in their list
 * order. Start times are compared by code unit (`localeCompare` is modelled as
 * plain string order).
 */
module DaySchedule {
  import opened Optional
  import opened Seqs
  import opened Text
  import opened Records

  /** A job with a start time (`scheduled_start_time` truthy). */
  predicate Timed(j: Job) {
    Present(j.startTime)
  }

  function Untimed(): Job -> bool {
    (j: Job) => !Timed(j)
  }

  /** `a` may stand before `b` in the sorted schedule. */
  predicate Le(a: Job, b: Job) {
    if Timed(a) then !Timed(b) || LexLe(a.startTime.value, b.startTime.value)
    else !Timed(b)
  }

  lemma LeTotal(a: Job, b: Job)
    ensures Le(a, b) || Le(b, a)
  {
    if Timed(a) && Timed(b) {
      LexLeTotal(a.startTime.value, b.startTime.value);
    }
  }

  lemma LeTransitive(a: Job, b: Job, c: Job)
    requires Le(a, b) && Le(b, c)
    ensures Le(a, c)
  {
    if Timed(a) && Timed(b) && Timed(c) {
      LexLeTransitive(a.startTime.value, b.startTime.value, c.startTime.value);
    }
  }

  /** Every job stands before the ones that follow it. */
  predicate Sorted(s: seq<Job>) {
    forall i, j :: 0 <= i < j < |s| ==> Le(s[i], s[j])
  }

  /** Inserts `x` into a sorted list after every job that may stand before it. */
  function Insert(s: seq<Job>, x: Job): (r: seq<Job>)
    ensures |r| == |s| + 1
    ensures multiset(r) == multiset(s) + multiset{x}
    decreases |s|
  {
    if s == [] || Le(s[|s| - 1], x) then s + [x]
    else
      var init := s[..|s| - 1];
      assert s == init + [s[|s| - 1]];
      Insert(init, x) + [s[|s| - 1]]
  }

  lemma {:induction false} InsertSorted(s: seq<Job>, x: Job)
    requires Sorted(s)
    ensures Sorted(Insert(s, x))
    ensures forall y :: y in Insert(s, x) ==> y in s || y == x
    decreases |s|
  {
    if s == [] || Le(s[|s| - 1], x) {
      var r := s + [x];
      forall i, j | 0 <= i < j < |r|
        ensures Le(r[i], r[j])
      {
        if j == |s| && i < |s| - 1 {
          LeTransitive(s[i], s[|s| - 1], x);
        }
      }
    } else {
      var init := s[..|s| - 1];
      var last := s[|s| - 1];
      assert s == init + [last];
      assert Sorted(init);
      InsertSorted(init, x);
      LeTotal(last, x);
      var r' := Insert(init, x);
      var r := r' + [last];
      forall i | 0 <= i < |r'|
        ensures Le(r'[i], last)
      {
        assert r'[i] in r';
      }
    }
  }

  /** A job without a start time goes to the end; inserting a timed one leaves the untimed ones as they were. */
  lemma {:induction false} InsertKeepsUntimed(s: seq<Job>, x: Job)
    ensures Filter(Insert(s, x), Untimed()) == Filter(s, Untimed()) + (if Timed(x) then [] else [x])
    decreases |s|
  {
    var r := Insert(s, x);
    if s == [] || Le(s[|s| - 1], x) {
      assert r[..|r| - 1] == s;
    } else {
      var init := s[..|s| - 1];
      var last := s[|s| - 1];
      assert s == init + [last];
      assert Timed(x);
      InsertKeepsUntimed(init, x);
      assert r[..|r| - 1] == Insert(init, x);
    }
  }

  /** `[...jobs].sort(comparator)`: a sorted copy; the given list is left as it is. */
  function SortJobs(jobs: seq<Job>): (r: seq<Job>)
    ensures multiset(r) == multiset(jobs)
    decreases |jobs|
  {
    if jobs == [] then []
    else
      assert jobs == jobs[..|jobs| - 1] + [jobs[|jobs| - 1]];
      Insert(SortJobs(jobs[..|jobs| - 1]), jobs[|jobs| - 1])
  }

  /**
   * The sorted schedule is a permutation of the day's jobs in which the timed
   * jobs come first, ascending by start time, and the untimed jobs keep their
   * list order.
   */
  lemma SortJobsSpec(jobs: seq<Job>)
    ensures multiset(SortJobs(jobs)) == multiset(jobs)
    ensures Sorted(SortJobs(jobs))
    ensures Filter(SortJobs(jobs), Untimed()) == Filter(jobs, Untimed())
  {
    SortJobsSorted(jobs);
    SortJobsKeepsUntimed(jobs);
  }

  lemma {:induction false} SortJobsSorted(jobs: seq<Job>)
    ensures Sorted(SortJobs(jobs))
    decreases |jobs|
  {
    if jobs != [] {
      var init := jobs[..|jobs| - 1];
      SortJobsSorted(init);
      InsertSorted(SortJobs(init), jobs[|jobs| - 1]);
    }
  }

  lemma {:induction false} SortJobsKeepsUntimed(jobs: seq<Job>)
    ensures Filter(SortJobs(jobs), Untimed()) == Filter(jobs, Untimed())
    decreases |jobs|
  {
    if jobs != [] {
      var init := jobs[..|jobs| - 1];
      var x := jobs[|jobs| - 1];
      assert jobs == init + [x];
      assert SortJobs(jobs) == Insert(SortJobs(init), x);
      SortJobsKeepsUntimed(init);
      InsertKeepsUntimed(SortJobs(init), x);
      FilterSnoc(init, x, Untimed());
    }
  }

  /** Read off `Sorted`: no untimed job precedes a timed one, and timed jobs ascend by start time. */
  lemma SortedMeans(s: seq<Job>, i: nat, j: nat)
    requires Sorted(s) && i < j < |s|
    ensures Timed(s[j]) ==> Timed(s[i])
    ensures Timed(s[i]) && Timed(s[j]) ==> LexLe(s[i].startTime.value, s[j].startTime.value)
  {
    assert Le(s[i], s[j]);
  }

  /** Complete and No Show are offered for scheduled jobs only. */
  predicate ShowsActions(j: Job) {
    j.status == Scheduled
  }

  /** The Unconfirmed badge: a scheduled job the customer has not confirmed. */
  function ShowsUnconfirmed(j: Job): (b: bool)
    ensures b ==> ShowsActions(j)
    ensures b <==> j.status == Scheduled && !j.customerConfirmed
  {
    !j.customerConfirmed && j.status == Scheduled
  }

  /** The price line `price_estimate || final_price || 0`: here the estimate comes first. */
  function PriceShown(j: Job): (p: int)
    ensures Truthy(j.priceEstimate) ==> p == j.priceEstimate.value
    ensures !Truthy(j.priceEstimate) && Truthy(j.finalPrice) ==> p == j.finalPrice.value
    ensures !Truthy(j.priceEstimate) && !Truthy(j.finalPrice) ==> p == 0
  {
    if Truthy(j.priceEstimate) then j.priceEstimate.value
    else if Truthy(j.finalPrice) then j.finalPrice.value
    else 0
  }

  /**
   * The schedule's price and the revenue figures' worth of a job differ only when
   * the job has both a truthy estimate and a truthy final price that differ.
   */
  lemma PriceShownVersusWorth(j: Job)
    ensures PriceShown(j) != JobValue(j) <==>
      Truthy(j.priceEstimate) && Truthy(j.finalPrice) && j.priceEstimate.value != j.finalPrice.value
  {
  }
}
