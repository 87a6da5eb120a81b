/**
 * The weather reschedule manager of a selected day: the operator ticks jobs of
 * a bad-weather day, writes an optional note, and sends every ticked customer
 * the reschedule message in one go.
 */
module WeatherManager {
  import opened Optional
  import opened Seqs
  import opened Records
  import opened Gateway
  import Calendar

  /** The message one ticked id produces: none when it matches no listed job or the job has no date. */
  function BatchStep(id: Id, dayJobs: seq<Job>, note: string): (r: seq<Message>)
    ensures |r| <= 1
  {
    var job := JobById(dayJobs, id);
    if job.None? then []
    else
      var m := Calendar.RescheduleMessage(job.value, note);
      if m.None? then [] else [m.value]
  }

  /** The messages a bulk send creates, in selection order, before the store stamps them. */
  function RescheduleBatch(selected: seq<Id>, dayJobs: seq<Job>, note: string): seq<Message>
    decreases |selected|
  {
    if selected == [] then []
    else RescheduleBatch(selected[..|selected| - 1], dayJobs, note) + BatchStep(selected[|selected| - 1], dayJobs, note)
  }

  /** A ticked id that yields a message: it matches a listed job that has a date. */
  predicate Sendable(dayJobs: seq<Job>, id: Id) {
    JobById(dayJobs, id).Some? && Present(JobById(dayJobs, id).value.scheduledDate)
  }

  function SendableIn(dayJobs: seq<Job>): Id -> bool {
    (id: Id) => Sendable(dayJobs, id)
  }

  /** One message per ticked id that matches a dated job; unmatched ids are skipped. */
  lemma {:induction false} BatchCount(selected: seq<Id>, dayJobs: seq<Job>, note: string)
    ensures |RescheduleBatch(selected, dayJobs, note)| == Count(selected, SendableIn(dayJobs))
    ensures |RescheduleBatch(selected, dayJobs, note)| <= |selected|
    decreases |selected|
  {
    if selected != [] {
      var s' := selected[..|selected| - 1];
      var id := selected[|selected| - 1];
      assert selected == s' + [id];
      BatchCount(s', dayJobs, note);
      CountAppend(s', id, SendableIn(dayJobs));
    }
  }

  /** Every message of a bulk send is a reschedule text about a ticked job of the day, to that job's customer. */
  lemma {:induction false} BatchAbout(selected: seq<Id>, dayJobs: seq<Job>, note: string)
    ensures forall m :: m in RescheduleBatch(selected, dayJobs, note) ==>
      && m.jobId.Some? && m.jobId.value in selected
      && (exists j :: j in dayJobs && j.id == m.jobId.value && j.customerId == m.customerId)
      && m.direction == Outbound && m.channel == TextChannel && !m.isAuto && m.body.Reschedule?
    decreases |selected|
  {
    if selected != [] {
      var s' := selected[..|selected| - 1];
      BatchAbout(s', dayJobs, note);
      assert forall x :: x in s' ==> x in selected;
    }
  }

  /** The component state: the ticked job ids and the note. */
  class WeatherManager {
    var selected: seq<Id>
    var note: string

    constructor ()
      ensures selected == [] && note == ""
    {
      selected, note := [], "";
    }

    /** Ticking an id removes it when present, else appends it; the selection stays free of duplicates. */
    method ToggleJob(id: Id)
      modifies this`selected
      ensures selected == Toggle(old(selected), id)
      ensures id in selected <==> id !in old(selected)
      ensures NoDuplicates(old(selected)) ==> NoDuplicates(selected)
    {
      if NoDuplicates(selected) {
        ToggleKeepsNoDuplicates(selected, id);
      }
      selected := Toggle(selected, id);
    }

    method SetNote(text: string)
      modifies this`note
      ensures note == text
    {
      note := text;
    }

    /** The job list shows only for a bad-weather day that has jobs. */
    function ShowsJobList(isBadWeather: bool, dayJobs: seq<Job>): (b: bool)
      ensures b ==> isBadWeather
    {
      isBadWeather && |dayJobs| > 0
    }

    /** The note and the send button show only with the job list and a non-empty selection. */
    function ShowsSendControl(isBadWeather: bool, dayJobs: seq<Job>): (b: bool)
      reads this
      ensures b ==> ShowsJobList(isBadWeather, dayJobs) && selected != []
    {
      ShowsJobList(isBadWeather, dayJobs) && |selected| > 0
    }

    /**
     * Sends the reschedule message for each ticked id, in selection order, then
     * empties the selection and the note. The messages are composed first and
     * then created one after the other.
     */
    method SendBulk(store: Store, dayJobs: seq<Job>) returns (sent: seq<Message>)
      requires store.Valid()
      modifies store`messages, store`nextId, this`selected, this`note
      ensures store.Valid()
      ensures sent == Stamped(RescheduleBatch(old(selected), dayJobs, old(note)), old(store.nextId), store.clock)
      ensures store.messages == old(store.messages) + sent
      ensures store.nextId == old(store.nextId) + |sent|
      ensures selected == [] && note == ""
    {
      sent := store.CreateMessages(RescheduleBatch(selected, dayJobs, note));
      selected, note := [], "";
    }
  }
}
