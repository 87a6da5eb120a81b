/**
 * The customer detail page: the revenue and completed-job figures over the
 * customer's fetched jobs, creating a new lead job for the customer, and the
 * "left a review" toggle.
 */
module CustomerDetail {
  import opened Optional
  import opened Seqs
  import opened Records
  import opened Gateway
  import opened Days
  import Dashboard

  /** The revenue figure: the worth of the completed jobs only. */
  function TotalRevenue(jobs: seq<Job>): int {
    TotalValue(WithStatus(jobs, Completed))
  }

  /** A further job adds its worth when it is completed, and nothing otherwise. */
  lemma TotalRevenueAppend(jobs: seq<Job>, j: Job)
    ensures TotalRevenue(jobs + [j]) == TotalRevenue(jobs) + (if j.status == Completed then JobValue(j) else 0)
  {
    var p := HasStatus(Completed);
    assert (jobs + [j])[..|jobs + [j]| - 1] == jobs;
    if p(j) {
      var r := Filter(jobs, p) + [j];
      assert r[..|r| - 1] == Filter(jobs, p);
    }
  }

  /**
   * The customer page and the dashboard agree: when every job was created within
   * the month window, the dashboard's monthly revenue is the customer page's total.
   */
  lemma RevenueAgreesWithDashboard(jobs: seq<Job>, monthStart: nat, monthEnd: nat)
    requires forall j :: j in jobs ==> monthStart <= j.created < monthEnd
    ensures Dashboard.MonthlyRevenue(jobs, monthStart, monthEnd) == TotalRevenue(jobs)
  {
    FilterExt(jobs, Dashboard.CompletedInMonth(monthStart, monthEnd), HasStatus(Completed));
  }

  /** The completed-jobs figure; with no completed job the revenue is 0. */
  function CompletedCount(jobs: seq<Job>): (n: nat)
    ensures n <= |jobs|
    ensures n == 0 ==> TotalRevenue(jobs) == 0
  {
    StatusCount(jobs, Completed)
  }

  /**
   * New Job: creates a lead for the customer, with the customer's name and
   * address copied into the job as they are now.
   */
  method HandleCreateJob(store: Store, customer: Customer) returns (j: Job)
    requires store.Valid()
    modifies store`jobs, store`nextId
    ensures store.Valid()
    ensures j.id == old(store.nextId) && j.status == Lead && j.customerId == customer.id
    ensures j.customerName == customer.fullName && j.customerAddress == customer.address
    ensures !j.customerConfirmed && j.scheduledDate.None? && j.priceEstimate.None?
    ensures store.jobs == old(store.jobs) + [j]
    ensures store.nextId == old(store.nextId) + 1
  {
    j := store.CreateJob(NewLead(customer.id, customer.fullName, customer.address));
  }

  /** The review toggle writes the negation of the flag as the page shows it. */
  method ToggleReview(store: Store, customer: Customer) returns (o: Outcome)
    requires store.Valid()
    modifies store`customers
    ensures store.Valid()
    ensures o == if HasId(old(store.customers), CustomerIdOf, customer.id) then Done else Failed(NotFound)
    ensures store.customers == UpdateWhere(old(store.customers), CustomerIdOf, customer.id, ReviewSetter(!customer.leftReview))
  {
    o := store.SetLeftReview(customer.id, !customer.leftReview);
  }

  /**
   * Toggling twice restores the table: the first toggle writes the negated flag,
   * the page then shows it, and the second toggle writes the original one back.
   */
  lemma ToggleReviewTwice(customers: seq<Customer>, c: Customer)
    requires forall x :: x in customers && x.id == c.id ==> x == c
    ensures var once := UpdateWhere(customers, CustomerIdOf, c.id, ReviewSetter(!c.leftReview));
      (forall x :: x in once && x.id == c.id ==> x == c.(leftReview := !c.leftReview)) &&
      UpdateWhere(once, CustomerIdOf, c.id, ReviewSetter(c.leftReview)) == customers
  {
    var once := UpdateWhere(customers, CustomerIdOf, c.id, ReviewSetter(!c.leftReview));
    forall x | x in once && x.id == c.id
      ensures x == c.(leftReview := !c.leftReview)
    {
      var i :| 0 <= i < |once| && once[i] == x;
      assert customers[i] in customers;
    }
    var twice := UpdateWhere(once, CustomerIdOf, c.id, ReviewSetter(c.leftReview));
    forall i | 0 <= i < |customers|
      ensures twice[i] == customers[i]
    {
      assert customers[i] in customers;
    }
  }
}
