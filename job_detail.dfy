/**
 * The job detail page: saving the job form writes the job and then sends the
 * automatic quote or confirmation message that the status change calls for;
 * the operator can also send a typed text message about the job.
 */
module JobDetail {
  import opened Optional
  import opened Seqs
  import opened Text
  import opened Records
  import opened Gateway

  /** A service id as shown to customers: its first `_` becomes a space. */
  function ServiceLabel(id: string): (r: string)
    ensures |r| == |id|
    ensures forall k :: 0 <= k < |id| && k != IndexOf(id, '_') ==> r[k] == id[k]
    ensures IndexOf(id, '_') < |id| ==> r[IndexOf(id, '_')] == ' '
  {
    ReplaceFirst(id, '_', ' ')
  }

  /** The labels of a list of service ids, in list order. */
  function ServiceLabels(ids: seq<string>): (r: seq<string>)
    ensures |r| == |ids|
    ensures forall i :: 0 <= i < |ids| ==> r[i] == ServiceLabel(ids[i])
  {
    seq(|ids|, i requires 0 <= i < |ids| => ServiceLabel(ids[i]))
  }

  /** The service text of a quote: the labels joined by ", ", or "window cleaning" when that is empty. */
  function ServiceText(serviceType: Option<seq<string>>): (r: string)
    ensures r != ""
    ensures serviceType.None? || serviceType.value == [] ==> r == "window cleaning"
    ensures serviceType.Some? && Join(ServiceLabels(serviceType.value), ", ") != "" ==>
      r == Join(ServiceLabels(serviceType.value), ", ")
    ensures serviceType.Some? && Join(ServiceLabels(serviceType.value), ", ") == "" ==> r == "window cleaning"
    ensures serviceType.Some? && |serviceType.value| >= 2 ==>
      r == ServiceLabel(serviceType.value[0]) + ", " + Join(ServiceLabels(serviceType.value[1..]), ", ")
    ensures serviceType.Some? && |serviceType.value| == 1 && serviceType.value[0] != "" ==>
      r == ServiceLabel(serviceType.value[0])
  {
    var joined := if serviceType.Some? then Join(ServiceLabels(serviceType.value), ", ") else "";
    assert serviceType.Some? && |serviceType.value| >= 2 ==>
      ServiceLabels(serviceType.value)[1..] == ServiceLabels(serviceType.value[1..]);
    if joined == "" then "window cleaning" else joined
  }

  /** The quoted duration in hours: the job's estimate when it is set and not zero, else 2. */
  function QuoteHours(estimatedDuration: Option<int>): (h: int)
    ensures Truthy(estimatedDuration) ==> h == estimatedDuration.value
    ensures !Truthy(estimatedDuration) ==> h == 2
  {
    if Truthy(estimatedDuration) then estimatedDuration.value else 2
  }

  /** Whether a save sends the quote: lead to quoted with a price that is set and not zero. */
  predicate SendsQuote(previousStatus: string, data: Job) {
    previousStatus == Lead && data.status == Quoted && Truthy(data.priceEstimate)
  }

  /** Whether a save sends the confirmation: into scheduled, from any other status, with a date. */
  predicate SendsConfirmation(previousStatus: string, data: Job) {
    data.status == Scheduled && Present(data.scheduledDate) && previousStatus != Scheduled
  }

  /**
   * The messages a save creates, in order, for a job of customer `customerId`
   * whose status was `previousStatus` before `data` was written.
   */
  function AutoMessages(previousStatus: string, data: Job, jobId: Id, customerId: Id): (r: seq<Message>)
    ensures |r| <= 1
    ensures SendsQuote(previousStatus, data) ==>
      r == [AutoMessage(customerId, jobId,
              Quote(ServiceText(data.serviceType), data.priceEstimate.value, QuoteHours(data.estimatedDuration)))]
    ensures SendsConfirmation(previousStatus, data) ==>
      r == [AutoMessage(customerId, jobId,
              Confirmation(data.scheduledDate.value, data.startTime, data.endTime, data.priceEstimate))]
    ensures !SendsQuote(previousStatus, data) && !SendsConfirmation(previousStatus, data) ==> r == []
  {
    var quote :=
      if SendsQuote(previousStatus, data) then
        [AutoMessage(customerId, jobId,
           Quote(ServiceText(data.serviceType), data.priceEstimate.value, QuoteHours(data.estimatedDuration)))]
      else [];
    var confirmation :=
      if SendsConfirmation(previousStatus, data) then
        [AutoMessage(customerId, jobId,
           Confirmation(data.scheduledDate.value, data.startTime, data.endTime, data.priceEstimate))]
      else [];
    quote + confirmation
  }

  /** A save that keeps the status sends nothing. */
  lemma UnchangedStatusSendsNothing(data: Job, jobId: Id, customerId: Id)
    ensures AutoMessages(data.status, data, jobId, customerId) == []
  {
  }

  /** A quote needs a price: with no price, or a price of 0, lead to quoted sends nothing. */
  lemma NoPriceNoQuote(data: Job, jobId: Id, customerId: Id)
    requires data.status == Quoted && !Truthy(data.priceEstimate)
    ensures AutoMessages(Lead, data, jobId, customerId) == []
  {
  }

  /** Every automatic message is an outbound text about this job, marked automatic. */
  lemma AutoMessagesShape(previousStatus: string, data: Job, jobId: Id, customerId: Id)
    ensures forall m :: m in AutoMessages(previousStatus, data, jobId, customerId) ==>
      m.customerId == customerId && m.jobId == Some(jobId) &&
      m.direction == Outbound && m.channel == TextChannel && m.isAuto
  {
  }

  /** The typed message of the page: an outbound text about the job, not automatic. */
  function TypedMessage(customerId: Id, jobId: Id, text: string): (m: Message)
    ensures m.customerId == customerId && m.jobId == Some(jobId)
    ensures m.direction == Outbound && m.channel == TextChannel && !m.isAuto
    ensures m.body == Typed(text)
  {
    NewMessage(customerId, Some(jobId), TextChannel, Typed(text), false, false)
  }

  /** The state of the page: the job it shows and the text box of the messages tab. */
  class JobDetailPage {
    const jobId: Id
    var messageText: string

    constructor (id: Id)
      ensures jobId == id && messageText == ""
    {
      jobId := id;
      messageText := "";
    }

    /** Typing, or picking a quick reply, replaces the text box. */
    method SetMessageText(text: string)
      modifies this`messageText
      ensures messageText == text
    {
      messageText := text;
    }

    /**
     * Saves the job form: the job is written first, with the submitted data as
     * given, and only then are the automatic messages created. A failed write
     * stops the save. Each message sent clears the text box.
     */
    method HandleSaveJob(store: Store, data: Job) returns (o: Outcome, sent: seq<Message>)
      requires store.Valid() && HasId(store.jobs, JobIdOf, jobId)
      modifies store`jobs, store`messages, store`nextId, this`messageText
      ensures store.Valid()
      ensures o == Done
      ensures store.jobs == UpdateWhere(old(store.jobs), JobIdOf, jobId, (j: Job) => data.(id := j.id, created := j.created))
      ensures var job := JobById(old(store.jobs), jobId).value;
        sent == Stamped(AutoMessages(job.status, data, jobId, job.customerId), old(store.nextId), store.clock)
      ensures store.messages == old(store.messages) + sent
      ensures store.nextId == old(store.nextId) + |sent|
      ensures messageText == if sent == [] then old(messageText) else ""
    {
      var job := JobById(store.jobs, jobId).value;
      var previousStatus := job.status;
      o := store.WriteJob(jobId, data);
      if o.Failed? {
        return o, [];
      }
      var auto := AutoMessages(previousStatus, data, jobId, job.customerId);
      sent := [];
      if auto != [] {
        var m := store.CreateMessage(auto[0]);
        messageText := "";
        sent := [m];
      }
    }

    /** Sends the text box as a typed message, unless it is blank once trimmed. */
    method HandleSendMessage(store: Store) returns (sent: Option<Message>)
      requires store.Valid() && HasId(store.jobs, JobIdOf, jobId)
      modifies store`messages, store`nextId, this`messageText
      ensures store.Valid()
      ensures Trim(old(messageText)) == [] ==>
        sent.None? && store.messages == old(store.messages) && store.nextId == old(store.nextId) &&
        messageText == old(messageText)
      ensures Trim(old(messageText)) != [] ==>
        && sent == Some(TypedMessage(JobById(store.jobs, jobId).value.customerId, jobId, old(messageText))
                          .(id := old(store.nextId), created := store.clock))
        && store.messages == old(store.messages) + [sent.value]
        && store.nextId == old(store.nextId) + 1
        && messageText == ""
    {
      if Trim(messageText) == [] {
        return None;
      }
      var job := JobById(store.jobs, jobId).value;
      var m := store.CreateMessage(TypedMessage(job.customerId, jobId, messageText));
      messageText := "";
      sent := Some(m);
    }
  }
}
