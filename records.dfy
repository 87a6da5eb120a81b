/**
 * The five record kinds of the entity store and the values their fields take.
 * Text fields the store may leave unset are `Option<string>`; numeric fields
 * (prices, durations) are `Option<int>`. Status, direction and channel are the
 * strings the source writes: nothing restricts them to the documented values.
 */
module Records {
  import opened Optional

  /** Record ids are assigned by the store from a counter. */
  type Id = nat

  const Lead := "lead"
  const Quoted := "quoted"
  const Scheduled := "scheduled"
  const Completed := "completed"
  const Cancelled := "cancelled"
  const NoShow := "no_show"

  const Inbound := "inbound"
  const Outbound := "outbound"
  const TextChannel := "text"

  datatype Customer = Customer(
    id: Id,
    fullName: Option<string>,
    mobileNumber: Option<string>,
    email: Option<string>,
    address: Option<string>,
    customerType: Option<string>,
    source: Option<string>,
    notes: Option<string>,
    leftReview: bool,
    created: nat)

  datatype Job = Job(
    id: Id,
    customerId: Id,
    customerName: Option<string>,
    customerAddress: Option<string>,
    status: string,
    serviceType: Option<seq<string>>,
    priceEstimate: Option<int>,
    finalPrice: Option<int>,
    estimatedDuration: Option<int>,
    scheduledDate: Option<string>,
    startTime: Option<string>,
    endTime: Option<string>,
    assignedTech: Option<string>,
    customerConfirmed: bool,
    notes: Option<string>,
    created: nat)

  /**
   * A message body. Operator-typed text is kept verbatim; the automatic messages
   * keep only the values substituted into their fixed wording.
   */
  datatype Body =
    | Typed(text: string)
    | Welcome
    | Quote(services: string, amount: int, hours: int)
    | Confirmation(date: string, start: Option<string>, end: Option<string>, estimate: Option<int>)
    | ReviewRequest
    | Reschedule(firstName: string, date: string, note: Option<string>)

  datatype Message = Message(
    id: Id,
    customerId: Id,
    jobId: Option<Id>,
    direction: string,
    channel: string,
    body: Body,
    isRead: bool,
    isAuto: bool,
    created: nat)

  /** A bad-weather marker on a `yyyy-MM-dd` date. */
  datatype Marker = Marker(id: Id, date: string, note: Option<string>)

  datatype Setting = Setting(id: Id, key: string, value: string, kind: string)

  /** JavaScript truthiness of a number that may be unset: set and not zero. */
  predicate Truthy(n: Option<int>) {
    n.Some? && n.value != 0
  }

  /** JavaScript truthiness of a string that may be unset: set and not empty. */
  predicate Present(s: Option<string>) {
    s.Some? && s.value != ""
  }

  /** `final_price || price_estimate || 0`: what a job is worth in the revenue figures. */
  function JobValue(j: Job): int {
    if Truthy(j.finalPrice) then j.finalPrice.value
    else if Truthy(j.priceEstimate) then j.priceEstimate.value
    else 0
  }

  /** An inbound message the operator has not read yet. */
  predicate IsUnreadInbound(m: Message) {
    m.direction == Inbound && !m.isRead
  }

  function MessageCustomer(m: Message): Id { m.customerId }

  function JobCustomer(j: Job): Id { j.customerId }

  /**
   * A message as the pages hand it to `Message.create`; the store replaces `id`
   * and `created`. The pages leave `is_read` out of automatic messages and of
   * the job page's typed message; the model assumes the store then records
   * them as unread.
   */
  function NewMessage(customerId: Id, jobId: Option<Id>, channel: string, body: Body, isRead: bool, isAuto: bool): (m: Message)
    ensures m.direction == Outbound
  {
    Message(0, customerId, jobId, Outbound, channel, body, isRead, isAuto, 0)
  }

  /** An automatic text message about a job, as the pages create them (`is_read` left to the store default). */
  function AutoMessage(customerId: Id, jobId: Id, body: Body): (m: Message)
    ensures m.customerId == customerId && m.jobId == Some(jobId)
    ensures m.direction == Outbound && m.channel == TextChannel && m.isAuto && !m.isRead
    ensures m.body == body
  {
    NewMessage(customerId, Some(jobId), TextChannel, body, false, true)
  }

  /** The total worth of `jobs` (`reduce((sum, j) => sum + (j.final_price || j.price_estimate || 0), 0)`). */
  function TotalValue(jobs: seq<Job>): int
    decreases |jobs|
  {
    if jobs == [] then 0 else TotalValue(jobs[..|jobs| - 1]) + JobValue(jobs[|jobs| - 1])
  }

  /** The worth of two lists together is the sum of their worths. */
  lemma {:induction false} TotalValueConcat(a: seq<Job>, b: seq<Job>)
    ensures TotalValue(a + b) == TotalValue(a) + TotalValue(b)
    decreases |b|
  {
    if b == [] {
      assert a + b == a;
    } else {
      var b' := b[..|b| - 1];
      assert (a + b)[..|a + b| - 1] == a + b';
      TotalValueConcat(a, b');
    }
  }

  /** A job with only the fields the source sets when it creates a lead. */
  function NewLead(customerId: Id, name: Option<string>, address: Option<string>): (j: Job)
    ensures j.status == Lead && !j.customerConfirmed
  {
    Job(0, customerId, name, address, Lead, None, None, None, None, None, None, None, None, false, None, 0)
  }
}
