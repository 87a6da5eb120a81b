/**
 * The new customer page: saving the form creates the customer, then a lead job
 * for it, then the welcome message, each step awaiting the one before. A store
 * call may fail (the network is outside the model): `failure` names the call
 * that fails, if any. The page then shows an error and keeps the records made
 * before the failure.
 */
module NewCustomer {
  import opened Optional
  import opened Records
  import opened Gateway

  /** The three store calls of the chain, in the order they run. */
  datatype Step = CustomerStep | JobStep | MessageStep

  /** What the chain yields: the new customer and job, or the call that failed. */
  datatype ChainResult = Created(customer: Customer, job: Job) | StepFailed(at: Step)

  const CreateError := "Could not create customer. Please check the details and try again."

  /** The number of records the chain creates before it stops. */
  function CreatedCount(failure: Option<Step>): (n: nat)
    ensures n <= 3
    ensures n == 3 <==> failure.None?
    ensures n == 0 <==> failure == Some(CustomerStep)
  {
    match failure
    case None => 3
    case Some(CustomerStep) => 0
    case Some(JobStep) => 1
    case Some(MessageStep) => 2
  }

  /**
   * The creation chain. The job is a lead of the new customer carrying the name
   * and address typed in the form; the welcome message is an automatic outbound
   * text about that customer and job. A failed call ends the chain: nothing after
   * it runs and nothing before it is undone.
   */
  method CreateChain(store: Store, data: Customer, failure: Option<Step>) returns (r: ChainResult)
    requires store.Valid()
    modifies store`customers, store`jobs, store`messages, store`nextId
    ensures store.Valid()
    ensures r.Created? <==> failure.None?
    ensures r.StepFailed? ==> r.at == failure.value
    ensures store.nextId == old(store.nextId) + CreatedCount(failure)
    ensures var c := data.(id := old(store.nextId), created := store.clock);
      store.customers == old(store.customers) + (if failure == Some(CustomerStep) then [] else [c])
    ensures var j := NewLead(old(store.nextId), data.fullName, data.address).(id := old(store.nextId) + 1, created := store.clock);
      store.jobs == old(store.jobs) + (if failure.None? || failure == Some(MessageStep) then [j] else [])
    ensures var m := AutoMessage(old(store.nextId), old(store.nextId) + 1, Welcome).(id := old(store.nextId) + 2, created := store.clock);
      store.messages == old(store.messages) + (if failure.None? then [m] else [])
    ensures r.Created? ==> r.customer == store.customers[|store.customers| - 1] && r.job == store.jobs[|store.jobs| - 1]
  {
    var completes := CreatedCount(failure);
    if completes == 0 {
      return StepFailed(CustomerStep);
    }
    var customer := store.CreateCustomer(data);
    if completes == 1 {
      return StepFailed(JobStep);
    }
    var job := store.CreateJob(NewLead(customer.id, data.fullName, data.address));
    if completes == 2 {
      return StepFailed(MessageStep);
    }
    var welcome := store.CreateMessage(AutoMessage(customer.id, job.id, Welcome));
    r := Created(customer, job);
  }

  /** The page state around a save. */
  class NewCustomerPage {
    var saving: bool
    var error: string

    constructor ()
      ensures !saving && error == ""
    {
      saving, error := false, "";
    }

    /**
     * Saves the form: clears the error, runs the chain, and on success opens the
     * new job (its id is returned); on failure sets the error text. The saving
     * flag is reset on every path.
     */
    method HandleSave(store: Store, data: Customer, failure: Option<Step>) returns (jobPage: Option<Id>)
      requires store.Valid()
      modifies this, store`customers, store`jobs, store`messages, store`nextId
      ensures store.Valid()
      ensures !saving
      ensures jobPage.Some? <==> failure.None?
      ensures jobPage.Some? ==> jobPage.value == old(store.nextId) + 1 && |store.jobs| > 0 && store.jobs[|store.jobs| - 1].id == jobPage.value
      ensures error == if failure.None? then "" else CreateError
      ensures store.nextId == old(store.nextId) + CreatedCount(failure)
      ensures var c := data.(id := old(store.nextId), created := store.clock);
        store.customers == old(store.customers) + (if failure == Some(CustomerStep) then [] else [c])
      ensures var j := NewLead(old(store.nextId), data.fullName, data.address).(id := old(store.nextId) + 1, created := store.clock);
        store.jobs == old(store.jobs) + (if failure.None? || failure == Some(MessageStep) then [j] else [])
      ensures var m := AutoMessage(old(store.nextId), old(store.nextId) + 1, Welcome).(id := old(store.nextId) + 2, created := store.clock);
        store.messages == old(store.messages) + (if failure.None? then [m] else [])
      ensures |store.customers| + |store.jobs| + |store.messages| ==
        |old(store.customers)| + |old(store.jobs)| + |old(store.messages)| + CreatedCount(failure)
    {
      error := "";
      saving := true;
      var r := CreateChain(store, data, failure);
      if r.Created? {
        jobPage := Some(r.job.id);
      } else {
        error := CreateError;
        jobPage := None;
      }
      saving := false;
    }
  }
}
