/**
 * The job form: its state starts from the job being edited laid over the form
 * defaults, is re-synced whenever the job changes, has a checkbox list of
 * service types, and is normalised on submit.
 *
 * The three numeric inputs hold either nothing (`''`), a number taken from the
 * stored job, or text the operator typed. Typed text is kept as the number it
 * parses to; it is a non-empty string, so it counts as given even when that
 * number is 0.
 */
module JobForm {
  import opened Optional
  import opened Seqs
  import opened Records

  datatype FormNum = Blank | Stored(value: int) | Typed(value: int)

  /** JavaScript truthiness of the input's value: a stored 0 is falsy, typed text never is. */
  predicate Given(n: FormNum) {
    n.Typed? || (n.Stored? && n.value != 0)
  }

  /** `formData.x ? parseFloat(formData.x) : null`. */
  function Normalised(n: FormNum): (r: Option<int>)
    ensures r.Some? <==> Given(n)
    ensures r.Some? ==> r.value == n.value
  {
    if Given(n) then Some(n.value) else None
  }

  /** The number field of a job as the form holds it: `value || ''` after a sync. */
  function Synced(n: Option<int>): (r: FormNum)
    ensures Truthy(n) ==> r == Stored(n.value)
    ensures !Truthy(n) ==> r == Blank
  {
    if Truthy(n) then Stored(n.value) else Blank
  }

  /**
   * The form state: the job's fields (their numeric members are not used) and
   * the three numeric inputs.
   */
  datatype Form = Form(fields: Job, priceEstimate: FormNum, finalPrice: FormNum, estimatedDuration: FormNum)

  /** The status choices of the form. */
  const StatusOptions: seq<string> := [Lead, Quoted, Scheduled, Completed, Cancelled, NoShow]

  /** The defaults of a new form: a lead with no services and empty text fields. */
  function Defaults(): Form {
    var fields := Job(0, 0, None, None, Lead, Some([]), None, None, None, Some(""), Some(""), Some(""), Some(""), false, Some(""), 0);
    Form(fields, Blank, Blank, Blank)
  }

  /**
   * The initial state: every field of the job overrides the default. A number
   * the store left unset leaves the input empty.
   */
  function Initial(job: Option<Job>): (f: Form)
    ensures job.None? ==> f == Defaults()
    ensures job.Some? ==> f.fields == job.value
    ensures job.Some? ==>
      f.priceEstimate == if job.value.priceEstimate.Some? then Stored(job.value.priceEstimate.value) else Blank
    ensures job.Some? ==>
      f.finalPrice == if job.value.finalPrice.Some? then Stored(job.value.finalPrice.value) else Blank
    ensures job.Some? ==>
      f.estimatedDuration == if job.value.estimatedDuration.Some? then Stored(job.value.estimatedDuration.value) else Blank
  {
    if job.None? then Defaults()
    else
      var j := job.value;
      var num := (n: Option<int>) => if n.Some? then Stored(n.value) else Blank;
      Form(j, num(j.priceEstimate), num(j.finalPrice), num(j.estimatedDuration))
  }

  /** The sync effect: the job's fields replace the form's, and a number of 0 or none empties its input. */
  function SyncedForm(prev: Form, job: Job): (f: Form)
    ensures f.fields == job
  {
    Form(job, Synced(job.priceEstimate), Synced(job.finalPrice), Synced(job.estimatedDuration))
  }

  /** The data `handleSubmit` hands on: the form's fields, with each empty or falsy number made null. */
  function Submit(f: Form): (data: Job)
    ensures data.priceEstimate == Normalised(f.priceEstimate)
    ensures data.finalPrice == Normalised(f.finalPrice)
    ensures data.estimatedDuration == Normalised(f.estimatedDuration)
    ensures data.(priceEstimate := f.fields.priceEstimate, finalPrice := f.fields.finalPrice,
                  estimatedDuration := f.fields.estimatedDuration) == f.fields
  {
    f.fields.(priceEstimate := Normalised(f.priceEstimate), finalPrice := Normalised(f.finalPrice),
              estimatedDuration := Normalised(f.estimatedDuration))
  }

  /** A number as it comes back from a form that was synced from it: kept when truthy, else null. */
  function RoundTripped(n: Option<int>): (r: Option<int>)
    ensures Truthy(n) ==> r == n
    ensures !Truthy(n) ==> r.None?
  {
    if Truthy(n) then n else None
  }

  /**
   * Submitting a form synced from a job gives the job back, except that a
   * number of 0 comes back as null; a job whose numbers are all truthy or unset
   * comes back unchanged.
   */
  lemma SyncSubmitRoundTrip(prev: Form, job: Job)
    ensures Submit(SyncedForm(prev, job)) ==
      job.(priceEstimate := RoundTripped(job.priceEstimate), finalPrice := RoundTripped(job.finalPrice),
           estimatedDuration := RoundTripped(job.estimatedDuration))
    ensures (job.priceEstimate != Some(0) && job.finalPrice != Some(0) && job.estimatedDuration != Some(0)) ==>
      Submit(SyncedForm(prev, job)) == job
  {
  }

  /** The initial state and the sync that follows it submit the same data. */
  lemma InitialAgreesWithSync(job: Job, prev: Form)
    ensures Submit(Initial(Some(job))) == Submit(SyncedForm(prev, job))
  {
  }

  /** The editable form state. */
  class JobFormState {
    var form: Form

    constructor (job: Option<Job>)
      ensures form == Initial(job)
    {
      form := Initial(job);
    }

    /** The effect that runs when a job is given: the form follows the job. */
    method Sync(job: Option<Job>)
      modifies this
      ensures job.None? ==> form == old(form)
      ensures job.Some? ==> form == SyncedForm(old(form), job.value)
    {
      if job.Some? {
        form := SyncedForm(form, job.value);
      }
    }

    /** A service checkbox: removes the id when listed, otherwise appends it (an unset list counts as empty). */
    method ToggleService(id: string)
      modifies this
      ensures form == old(form).(fields := old(form).fields.(serviceType := Some(Toggle(old(form).fields.serviceType.GetOr([]), id))))
      ensures id in form.fields.serviceType.value <==> id !in old(form).fields.serviceType.GetOr([])
      ensures NoDuplicates(old(form).fields.serviceType.GetOr([])) ==> NoDuplicates(form.fields.serviceType.value)
    {
      var listed := form.fields.serviceType.GetOr([]);
      if NoDuplicates(listed) {
        ToggleKeepsNoDuplicates(listed, id);
      }
      form := form.(fields := form.fields.(serviceType := Some(Toggle(listed, id))));
    }

    /** The status select writes any of the choices; nothing checks the move from the previous status. */
    method SetStatus(status: string)
      requires status in StatusOptions
      modifies this
      ensures form == old(form).(fields := old(form).fields.(status := status))
    {
      form := form.(fields := form.fields.(status := status));
    }
  }

  /** Toggling the same service twice restores whether it is listed. */
  lemma ToggleServiceTwice(listed: seq<string>, id: string)
    ensures id in Toggle(Toggle(listed, id), id) <==> id in listed
    ensures id !in listed ==> Toggle(Toggle(listed, id), id) == listed
  {
    ToggleTwice(listed, id, id);
    if id !in listed {
      ToggleTwiceAbsent(listed, id);
    }
  }
}
