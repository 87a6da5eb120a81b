/**
 * The calendar page's handlers: marking and clearing a bad-weather day,
 * completing a job (which asks the customer for a review), recording a no-show
 * and sending a weather reschedule message. Dates are `yyyy-MM-dd` strings; the
 * long-form date of the reschedule wording is outside the model.
 */
module Calendar {
  import opened Optional
  import opened Seqs
  import opened Text
  import opened Records
  import opened Gateway
  import opened Days

  /** Marking a day always adds a marker, even when the day already has one. */
  method MarkBadWeather(store: Store, date: string) returns (d: Marker)
    requires store.Valid()
    modifies store`markers, store`nextId
    ensures store.Valid()
    ensures d == Marker(old(store.nextId), date, None)
    ensures store.markers == old(store.markers) + [d]
    ensures HasMarker(store.markers, date)
  {
    d := store.CreateMarker(date);
    assert d in store.markers;
  }

  /** The marker list once the first marker of `date` is deleted (unchanged when there is none). */
  function Cleared(markers: seq<Marker>, date: string): (r: seq<Marker>)
    ensures !HasMarker(markers, date) ==> r == markers
    ensures HasMarker(markers, date) ==> |r| == |markers| - 1
    ensures forall d :: d in r ==> d in markers
    ensures HasMarker(markers, date) ==>
      var k := FirstIndex(markers, MarkerOn(date));
      && k < |markers| && markers[k].date == date
      && (forall i :: 0 <= i < k ==> markers[i].date != date)
      && r == markers[..k] + markers[k + 1..]
  {
    var k := FirstIndex(markers, MarkerOn(date));
    if k < |markers| then RemoveAt(markers, k) else markers
  }

  /** Clearing touches only markers of that date: every other day keeps its state. */
  lemma ClearedKeepsOtherDays(markers: seq<Marker>, date: string, other: string)
    requires other != date
    ensures HasMarker(Cleared(markers, date), other) <==> HasMarker(markers, other)
  {
    var k := FirstIndex(markers, MarkerOn(date));
    if k < |markers| {
      var r := RemoveAt(markers, k);
      forall d | d in markers && d.date == other
        ensures d in r
      {
        var i :| 0 <= i < |markers| && markers[i] == d;
        assert i != k;
        if i < k { assert r[i] == d; } else { assert r[i - 1] == d; }
      }
    }
  }

  /**
   * Only the first marker goes: a day marked twice is still marked after one
   * clear, although the button that did it reads "Clear Weather Alert".
   */
  lemma ClearAfterDoubleMarkLeavesMarker(markers: seq<Marker>, d1: Marker, d2: Marker)
    requires d1.date == d2.date
    ensures HasMarker(Cleared(markers + [d1, d2], d1.date), d1.date)
  {
    var s := markers + [d1, d2];
    var k := FirstIndex(s, MarkerOn(d1.date));
    assert s[|s| - 1] == d2 && s[|s| - 2] == d1;
    assert k <= |s| - 2;
    var r := RemoveAt(s, k);
    assert r[|r| - 1] == d2;
  }

  /** Clearing a day deletes the first listed marker of that date, if any. */
  method ClearBadWeather(store: Store, date: string) returns (o: Outcome)
    requires store.Valid()
    modifies store`markers
    ensures store.Valid()
    ensures o == Done
    ensures store.markers == Cleared(old(store.markers), date)
  {
    var k := FirstIndex(store.markers, MarkerOn(date));
    if k == |store.markers| {
      return Done;
    }
    DeleteIdAt(store.markers, MarkerIdOf, store.nextId, k);
    o := store.DeleteMarker(store.markers[k].id);
  }

  /**
   * Completing a job writes status completed and only then creates the review
   * request; when the write fails (no such job) nothing is sent.
   */
  method MarkComplete(store: Store, job: Job) returns (o: Outcome, sent: Option<Message>)
    requires store.Valid()
    modifies store`jobs, store`messages, store`nextId
    ensures store.Valid()
    ensures o == if HasId(old(store.jobs), JobIdOf, job.id) then Done else Failed(NotFound)
    ensures store.jobs == UpdateWhere(old(store.jobs), JobIdOf, job.id, StatusSetter(Completed))
    ensures o.Failed? ==> sent.None? && store.messages == old(store.messages) && store.nextId == old(store.nextId)
    ensures o == Done ==>
      && sent == Some(AutoMessage(job.customerId, job.id, ReviewRequest).(id := old(store.nextId), created := store.clock))
      && store.messages == old(store.messages) + [sent.value]
      && store.nextId == old(store.nextId) + 1
  {
    o := store.SetJobStatus(job.id, Completed);
    if o.Failed? {
      return o, None;
    }
    var m := store.CreateMessage(AutoMessage(job.customerId, job.id, ReviewRequest));
    sent := Some(m);
  }

  /** A no-show writes status no_show and sends nothing. */
  method MarkNoShow(store: Store, job: Job) returns (o: Outcome)
    requires store.Valid()
    modifies store`jobs
    ensures store.Valid()
    ensures o == if HasId(old(store.jobs), JobIdOf, job.id) then Done else Failed(NotFound)
    ensures store.jobs == UpdateWhere(old(store.jobs), JobIdOf, job.id, StatusSetter(NoShow))
  {
    o := store.SetJobStatus(job.id, NoShow);
  }

  /** `customer_name?.split(' ')[0] || ''`. */
  function FirstName(name: Option<string>): (r: string)
    ensures name.None? ==> r == ""
    ensures name.Some? ==> r <= name.value && ' ' !in r
    ensures name.Some? && |r| < |name.value| ==> name.value[|r|] == ' '
  {
    if name.None? then "" else FirstWord(name.value)
  }

  /**
   * The reschedule message for `job`: the greeting's first name, the job's date and
   * the note when it is not empty. A job without a date has none: formatting its
   * missing date throws before anything is sent.
   */
  function RescheduleMessage(job: Job, note: string): (r: Option<Message>)
    ensures r.Some? <==> Present(job.scheduledDate)
    ensures r.Some? ==>
      && r.value.customerId == job.customerId && r.value.jobId == Some(job.id)
      && r.value.direction == Outbound && r.value.channel == TextChannel && !r.value.isAuto
      && r.value.body.Reschedule? && r.value.body.date == job.scheduledDate.value
      && r.value.body.firstName == FirstName(job.customerName)
      && (r.value.body.note.Some? <==> note != "")
      && (note != "" ==> r.value.body.note == Some(note))
  {
    if !Present(job.scheduledDate) then None
    else
      var body := Reschedule(FirstName(job.customerName), job.scheduledDate.value, if note != "" then Some(note) else None);
      Some(NewMessage(job.customerId, Some(job.id), TextChannel, body, false, false))
  }

  /** Sends the reschedule message of `job`; the job itself, status included, is left as it is. */
  method SendReschedule(store: Store, job: Job, note: string) returns (sent: Option<Message>)
    requires store.Valid()
    modifies store`messages, store`nextId
    ensures store.Valid()
    ensures RescheduleMessage(job, note).None? ==>
      sent.None? && store.messages == old(store.messages) && store.nextId == old(store.nextId)
    ensures RescheduleMessage(job, note).Some? ==>
      && sent == Some(RescheduleMessage(job, note).value.(id := old(store.nextId), created := store.clock))
      && store.messages == old(store.messages) + [sent.value]
      && store.nextId == old(store.nextId) + 1
  {
    var m := RescheduleMessage(job, note);
    if m.None? {
      return None;
    }
    var created := store.CreateMessage(m.value);
    sent := Some(created);
  }
}
