/**
 * The customer list page: the number of jobs of each customer, and the search
 * box and type tab that select the customers shown.
 */
module CustomersPage {
  import opened Optional
  import opened Seqs
  import opened Text
  import opened Records

  /** The jobs of customer `c` (`job.customer_id === c`), in list order. */
  function JobsOf(jobs: seq<Job>, c: Id): (r: seq<Job>)
    ensures forall j :: j in r <==> j in jobs && j.customerId == c
  {
    KeyFilter(jobs, JobCustomer, c)
  }

  /**
   * `customerJobCounts`: one `forEach` over the jobs, incrementing the entry of
   * each job's customer (`(counts[id] || 0) + 1`).
   */
  method JobCounts(jobs: seq<Job>) returns (counts: map<Id, nat>)
    ensures counts.Keys == set j | j in jobs :: j.customerId
    ensures forall c :: c in counts ==> counts[c] == |JobsOf(jobs, c)|
  {
    counts := map[];
    var i := 0;
    while i < |jobs|
      invariant 0 <= i <= |jobs|
      invariant counts.Keys == set j | j in jobs[..i] :: j.customerId
      invariant forall c :: c in counts ==> counts[c] == |JobsOf(jobs[..i], c)|
    {
      var c := jobs[i].customerId;
      PrefixStep(jobs, i);
      CountStep(jobs[..i], jobs[i], counts);
      counts := counts[c := (if c in counts then counts[c] else 0) + 1];
      i := i + 1;
    }
    assert jobs[..i] == jobs;
  }

  /** One step of the count loop: the job's customer gains one, every other entry stays. */
  lemma CountStep(seen: seq<Job>, j: Job, counts: map<Id, nat>)
    requires counts.Keys == set x | x in seen :: x.customerId
    requires forall c :: c in counts ==> counts[c] == |JobsOf(seen, c)|
    ensures var counts' := counts[j.customerId := (if j.customerId in counts then counts[j.customerId] else 0) + 1];
      counts'.Keys == (set x | x in seen + [j] :: x.customerId) &&
      forall c :: c in counts' ==> counts'[c] == |JobsOf(seen + [j], c)|
  {
    var counts' := counts[j.customerId := (if j.customerId in counts then counts[j.customerId] else 0) + 1];
    assert (set x | x in seen + [j] :: x.customerId) == (set x | x in seen :: x.customerId) + {j.customerId};
    forall k | k in counts'
      ensures counts'[k] == |JobsOf(seen + [j], k)|
    {
      CountStepAt(seen, j, k);
      if k !in counts {
        KeyFilterOfAbsent(seen, k);
      }
    }
  }

  /** Appending a job adds one to its customer's group and leaves the other groups. */
  lemma CountStepAt(seen: seq<Job>, j: Job, k: Id)
    ensures |JobsOf(seen + [j], k)| == |JobsOf(seen, k)| + (if j.customerId == k then 1 else 0)
  {
    KeyFilterAppend(seen, j, JobCustomer, k);
  }

  /** A customer with no job in the list has an empty group. */
  lemma {:induction false} KeyFilterOfAbsent(jobs: seq<Job>, c: Id)
    requires forall j :: j in jobs ==> j.customerId != c
    ensures KeyFilter(jobs, JobCustomer, c) == []
    decreases |jobs|
  {
    if jobs != [] {
      var jobs' := jobs[..|jobs| - 1];
      assert jobs == jobs' + [jobs[|jobs| - 1]];
      KeyFilterOfAbsent(jobs', c);
      KeyFilterAppend(jobs', jobs[|jobs| - 1], JobCustomer, c);
    }
  }

  /** `customerJobCounts[customer.id] || 0`: the number shown on a customer's card. */
  function ShownCount(counts: map<Id, nat>, c: Id): nat {
    if c in counts then counts[c] else 0
  }

  /** Every customer's card shows the number of its jobs, so a customer with no job shows 0. */
  lemma ShownCountIsJobCount(jobs: seq<Job>, counts: map<Id, nat>, c: Id)
    requires counts.Keys == set j | j in jobs :: j.customerId
    requires forall k :: k in counts ==> counts[k] == |JobsOf(jobs, k)|
    ensures ShownCount(counts, c) == |JobsOf(jobs, c)|
    ensures (forall j :: j in jobs ==> j.customerId != c) ==> ShownCount(counts, c) == 0
  {
    if c !in counts {
      KeyFilterOfAbsent(jobs, c);
    }
  }

  /** The sum of the job counts of the customers `cs`. */
  function SumCounts(jobs: seq<Job>, cs: seq<Id>): nat
    decreases |cs|
  {
    if cs == [] then 0 else SumCounts(jobs, cs[..|cs| - 1]) + |JobsOf(jobs, cs[|cs| - 1])|
  }

  lemma {:induction false} SumCountsIsSumOver(jobs: seq<Job>, cs: seq<Id>)
    ensures SumCounts(jobs, cs) == SumOver(jobs, JobCustomer, cs, Always)
    decreases |cs|
  {
    if cs != [] {
      SumCountsIsSumOver(jobs, cs[..|cs| - 1]);
      CountAlways(KeyFilter(jobs, JobCustomer, cs[|cs| - 1]));
    }
  }

  /** Every job is counted for exactly one customer: the counts over the customers with jobs add up to the job total. */
  lemma CountsSumToTotal(jobs: seq<Job>)
    ensures SumCounts(jobs, Keys(jobs, JobCustomer)) == |jobs|
  {
    SumCountsIsSumOver(jobs, Keys(jobs, JobCustomer));
    PartitionCount(jobs, JobCustomer, Always);
    CountAlways(jobs);
  }

  /** `field?.toLowerCase().includes(search.toLowerCase())`: an unset field never matches. */
  predicate FieldMatches(field: Option<string>, search: string) {
    field.Some? && ContainsIgnoringCase(field.value, search)
  }

  /**
   * The search box: empty matches every customer; otherwise the name, address or
   * email must contain it ignoring case, or the mobile number must contain it as typed.
   */
  predicate SearchMatches(c: Customer, search: string) {
    search == [] ||
    FieldMatches(c.fullName, search) ||
    (c.mobileNumber.Some? && Contains(c.mobileNumber.value, search)) ||
    FieldMatches(c.address, search) ||
    FieldMatches(c.email, search)
  }

  /**
   * The type tab: `residential` also keeps customers without a type, `commercial`
   * needs that exact type, `reviewed` needs a left review, anything else keeps all.
   */
  predicate TypeKeeps(filter: string, c: Customer) {
    match filter
    case "residential" => c.customerType == Some("residential") || !Present(c.customerType)
    case "commercial" => c.customerType == Some("commercial")
    case "reviewed" => c.leftReview
    case _ => true
  }

  function Shown(search: string, filter: string): Customer -> bool {
    (c: Customer) => SearchMatches(c, search) && TypeKeeps(filter, c)
  }

  /** The customers the page lists: those that pass the search and then the type tab. */
  function FilteredCustomers(customers: seq<Customer>, search: string, filter: string): (r: seq<Customer>)
    ensures |r| <= |customers|
    ensures forall c :: c in r <==> c in customers && SearchMatches(c, search) && TypeKeeps(filter, c)
  {
    Filter(customers, Shown(search, filter))
  }

  /** The listed customers keep the order of the fetched list. */
  lemma FilteredInOrder(customers: seq<Customer>, search: string, filter: string)
    ensures Embeds(FilteredCustomers(customers, search, filter), customers)
  {
    FilterEmbeds(customers, Shown(search, filter));
  }

  /** With an empty search, `all` or an unknown key lists every customer, in order. */
  lemma OtherFilterKeepsAll(customers: seq<Customer>, filter: string)
    requires filter != "residential" && filter != "commercial" && filter != "reviewed"
    ensures FilteredCustomers(customers, "", filter) == customers
  {
    FilterKeepsAll(customers, Shown("", filter));
  }

  /** No customer is in both the residential and the commercial tab, so together they fit in the list. */
  lemma {:induction false} ResidentialCommercialDisjoint(customers: seq<Customer>, search: string)
    ensures |FilteredCustomers(customers, search, "residential")| + |FilteredCustomers(customers, search, "commercial")| <= |customers|
    decreases |customers|
  {
    if customers != [] {
      var cs := customers[..|customers| - 1];
      var c := customers[|customers| - 1];
      assert customers == cs + [c];
      ResidentialCommercialDisjoint(cs, search);
      CountAppend(cs, c, Shown(search, "residential"));
      CountAppend(cs, c, Shown(search, "commercial"));
    }
  }
}
