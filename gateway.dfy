/**
 * The entity store as in-memory tables: one sequence per record kind, in
 * creation order, with ids drawn from one counter and `created` stamped from
 * the store's clock. `create` always succeeds; `update` and `delete` of an id
 * that is not in the table fail with `NotFound`.
 */
module Gateway {
  import opened Optional
  import opened Seqs
  import opened Records

  datatype Error = NotFound | Transport

  /** The result of an operation that returns nothing on success. */
  datatype Outcome = Done | Failed(error: Error)

  function CustomerIdOf(c: Customer): Id { c.id }
  function JobIdOf(j: Job): Id { j.id }
  function MessageIdOf(m: Message): Id { m.id }
  function MarkerIdOf(d: Marker): Id { d.id }
  function SettingIdOf(s: Setting): Id { s.id }

  /** A message with its read flag set. */
  function AsRead(m: Message): (r: Message)
    ensures r.isRead && r.(isRead := m.isRead) == m
  {
    m.(isRead := true)
  }

  /** Every id in `s` is below `bound` and no two records share an id. */
  ghost predicate IdsUniqueBelow<T(!new)>(s: seq<T>, idOf: T -> Id, bound: nat) {
    && (forall i :: 0 <= i < |s| ==> idOf(s[i]) < bound)
    && (forall i, j :: 0 <= i < j < |s| ==> idOf(s[i]) != idOf(s[j]))
  }

  /** Whether some record of `s` has id `id`. */
  predicate HasId<T(!new)>(s: seq<T>, idOf: T -> Id, id: Id) {
    exists i :: 0 <= i < |s| && idOf(s[i]) == id
  }

  /** The job with id `id` (`Job.filter({ id })[0]`). */
  function JobById(jobs: seq<Job>, id: Id): (r: Option<Job>)
    ensures r.Some? <==> HasId(jobs, JobIdOf, id)
    ensures r.Some? ==> r.value in jobs && r.value.id == id
  {
    Find(jobs, (j: Job) => j.id == id)
  }

  /** The update `{ status }`: a job with only its status replaced. */
  function StatusSetter(status: string): Job -> Job {
    (j: Job) => j.(status := status)
  }

  /** The update `{ left_review }`: a customer with only its review flag replaced. */
  function ReviewSetter(value: bool): Customer -> Customer {
    (c: Customer) => c.(leftReview := value)
  }

  /** The messages `created` as the store keeps them after creating them in order: ids from `firstId` on. */
  function Stamped(created: seq<Message>, firstId: Id, clock: nat): (r: seq<Message>)
    ensures |r| == |created|
    decreases |created|
  {
    if created == [] then []
    else [created[0].(id := firstId, created := clock)] + Stamped(created[1..], firstId + 1, clock)
  }

  /** Each stamped message is the created one with the next id and the clock's time. */
  lemma {:induction false} StampedAt(created: seq<Message>, firstId: Id, clock: nat, i: nat)
    requires i < |created|
    ensures Stamped(created, firstId, clock)[i] == created[i].(id := firstId + i, created := clock)
    decreases i
  {
    if i > 0 {
      StampedAt(created[1..], firstId + 1, clock, i - 1);
    }
  }

  /** Stamping a concatenation stamps the second part from where the first part ends. */
  lemma {:induction false} StampedConcat(a: seq<Message>, b: seq<Message>, firstId: Id, clock: nat)
    ensures Stamped(a + b, firstId, clock) == Stamped(a, firstId, clock) + Stamped(b, firstId + |a|, clock)
    decreases |a|
  {
    if a == [] {
      assert a + b == b;
    } else {
      assert (a + b)[1..] == a[1..] + b;
      StampedConcat(a[1..], b, firstId + 1, clock);
    }
  }

  /** Stamping one more message gives it the id that follows the others. */
  lemma StampedSnoc(a: seq<Message>, x: Message, firstId: Id, clock: nat)
    ensures Stamped(a + [x], firstId, clock) == Stamped(a, firstId, clock) + [x.(id := firstId + |a|, created := clock)]
  {
    StampedConcat(a, [x], firstId, clock);
    assert Stamped([x], firstId + |a|, clock) == [x.(id := firstId + |a|, created := clock)] + Stamped([], firstId + |a| + 1, clock);
  }

  /** `s` with each record whose id is `id` replaced by `f` of it. */
  function UpdateWhere<T(!new)>(s: seq<T>, idOf: T -> Id, id: Id, f: T -> T): (r: seq<T>)
    ensures |r| == |s|
    ensures forall i :: 0 <= i < |s| ==> r[i] == if idOf(s[i]) == id then f(s[i]) else s[i]
  {
    seq(|s|, i requires 0 <= i < |s| => if idOf(s[i]) == id then f(s[i]) else s[i])
  }

  /** `s` without its first record whose id is `id` (all of `s` when there is none). */
  function DeleteId<T(!new)>(s: seq<T>, idOf: T -> Id, id: Id): (r: seq<T>)
  {
    var k := FirstIndex(s, x => idOf(x) == id);
    if k == |s| then s else RemoveAt(s, k)
  }

  /** With unique ids, deleting the id found at position `k` removes exactly position `k`. */
  lemma DeleteIdAt<T(!new)>(s: seq<T>, idOf: T -> Id, bound: nat, k: nat)
    requires IdsUniqueBelow(s, idOf, bound) && k < |s|
    ensures DeleteId(s, idOf, idOf(s[k])) == RemoveAt(s, k)
  {
    var i := FirstIndex(s, x => idOf(x) == idOf(s[k]));
    assert i == k;
  }

  class Store {
    var customers: seq<Customer>
    var jobs: seq<Job>
    var messages: seq<Message>
    var markers: seq<Marker>
    var settings: seq<Setting>
    /** The id the next created record receives. */
    var nextId: nat
    /** The time stamped on created records; how it advances is outside the model. */
    var clock: nat

    ghost predicate Valid()
      reads this
    {
      && IdsUniqueBelow(customers, CustomerIdOf, nextId)
      && IdsUniqueBelow(jobs, JobIdOf, nextId)
      && IdsUniqueBelow(messages, MessageIdOf, nextId)
      && IdsUniqueBelow(markers, MarkerIdOf, nextId)
      && IdsUniqueBelow(settings, SettingIdOf, nextId)
    }

    constructor (now: nat)
      ensures Valid()
      ensures customers == [] && jobs == [] && messages == [] && markers == [] && settings == []
      ensures clock == now
    {
      customers, jobs, messages, markers, settings := [], [], [], [], [];
      nextId, clock := 0, now;
    }

    method CreateCustomer(data: Customer) returns (c: Customer)
      requires Valid()
      modifies this`customers, this`nextId
      ensures Valid()
      ensures c == data.(id := old(nextId), created := clock)
      ensures customers == old(customers) + [c] && nextId == old(nextId) + 1
    {
      c := data.(id := nextId, created := clock);
      customers := customers + [c];
      nextId := nextId + 1;
    }

    method CreateJob(data: Job) returns (j: Job)
      requires Valid()
      modifies this`jobs, this`nextId
      ensures Valid()
      ensures j == data.(id := old(nextId), created := clock)
      ensures jobs == old(jobs) + [j] && nextId == old(nextId) + 1
    {
      j := data.(id := nextId, created := clock);
      jobs := jobs + [j];
      nextId := nextId + 1;
    }

    method CreateMessage(data: Message) returns (m: Message)
      requires Valid()
      modifies this`messages, this`nextId
      ensures Valid()
      ensures m == data.(id := old(nextId), created := clock)
      ensures messages == old(messages) + [m] && nextId == old(nextId) + 1
    {
      m := data.(id := nextId, created := clock);
      messages := messages + [m];
      nextId := nextId + 1;
    }

    /** Creates the messages of `batch` one after the other, in order. */
    method CreateMessages(batch: seq<Message>) returns (sent: seq<Message>)
      requires Valid()
      modifies this`messages, this`nextId
      ensures Valid()
      ensures sent == Stamped(batch, old(nextId), clock)
      ensures messages == old(messages) + sent && nextId == old(nextId) + |batch|
    {
      sent := [];
      ghost var before, first := messages, nextId;
      var i := 0;
      while i < |batch|
        invariant 0 <= i <= |batch|
        invariant Valid()
        invariant sent == Stamped(batch[..i], first, clock)
        invariant messages == before + sent && nextId == first + i
      {
        PrefixStep(batch, i);
        StampedSnoc(batch[..i], batch[i], first, clock);
        var m := CreateMessage(batch[i]);
        assert messages == before + (sent + [m]);
        sent := sent + [m];
        i := i + 1;
      }
      assert batch[..i] == batch;
    }

    method CreateMarker(date: string) returns (d: Marker)
      requires Valid()
      modifies this`markers, this`nextId
      ensures Valid()
      ensures d == Marker(old(nextId), date, None)
      ensures markers == old(markers) + [d] && nextId == old(nextId) + 1
    {
      d := Marker(nextId, date, None);
      markers := markers + [d];
      nextId := nextId + 1;
    }

    method CreateSetting(key: string, value: string, kind: string) returns (s: Setting)
      requires Valid()
      modifies this`settings, this`nextId
      ensures Valid()
      ensures s == Setting(old(nextId), key, value, kind)
      ensures settings == old(settings) + [s] && nextId == old(nextId) + 1
    {
      s := Setting(nextId, key, value, kind);
      settings := settings + [s];
      nextId := nextId + 1;
    }

    /** `Job.update(id, { status })`. */
    method SetJobStatus(id: Id, status: string) returns (o: Outcome)
      modifies this`jobs
      ensures old(Valid()) ==> Valid()
      ensures o == if HasId(old(jobs), JobIdOf, id) then Done else Failed(NotFound)
      ensures jobs == UpdateWhere(old(jobs), JobIdOf, id, StatusSetter(status))
    {
      if !HasId(jobs, JobIdOf, id) {
        return Failed(NotFound);
      }
      jobs := UpdateWhere(jobs, JobIdOf, id, StatusSetter(status));
      o := Done;
    }

    /** `Job.update(id, data)` with every field of the job given: all but `id` and `created` are written. */
    method WriteJob(id: Id, data: Job) returns (o: Outcome)
      modifies this`jobs
      ensures old(Valid()) ==> Valid()
      ensures o == if HasId(old(jobs), JobIdOf, id) then Done else Failed(NotFound)
      ensures jobs == UpdateWhere(old(jobs), JobIdOf, id, (j: Job) => data.(id := j.id, created := j.created))
    {
      if !HasId(jobs, JobIdOf, id) {
        return Failed(NotFound);
      }
      jobs := UpdateWhere(jobs, JobIdOf, id, (j: Job) => data.(id := j.id, created := j.created));
      o := Done;
    }

    /** `Customer.update(id, { left_review })`. */
    method SetLeftReview(id: Id, value: bool) returns (o: Outcome)
      modifies this`customers
      ensures old(Valid()) ==> Valid()
      ensures o == if HasId(old(customers), CustomerIdOf, id) then Done else Failed(NotFound)
      ensures customers == UpdateWhere(old(customers), CustomerIdOf, id, ReviewSetter(value))
    {
      if !HasId(customers, CustomerIdOf, id) {
        return Failed(NotFound);
      }
      customers := UpdateWhere(customers, CustomerIdOf, id, ReviewSetter(value));
      o := Done;
    }

    /** `Message.update(id, { is_read: true })`. */
    method SetMessageRead(id: Id) returns (o: Outcome)
      modifies this`messages
      ensures old(Valid()) ==> Valid()
      ensures o == if HasId(old(messages), MessageIdOf, id) then Done else Failed(NotFound)
      ensures messages == UpdateWhere(old(messages), MessageIdOf, id, AsRead)
    {
      if !HasId(messages, MessageIdOf, id) {
        return Failed(NotFound);
      }
      messages := UpdateWhere(messages, MessageIdOf, id, AsRead);
      o := Done;
    }

    /** `BadWeatherDay.delete(id)`. */
    method DeleteMarker(id: Id) returns (o: Outcome)
      requires Valid()
      modifies this`markers
      ensures Valid()
      ensures o == if HasId(old(markers), MarkerIdOf, id) then Done else Failed(NotFound)
      ensures markers == DeleteId(old(markers), MarkerIdOf, id)
    {
      var k := FirstIndex(markers, (d: Marker) => MarkerIdOf(d) == id);
      if k == |markers| {
        return Failed(NotFound);
      }
      markers := RemoveAt(markers, k);
      o := Done;
    }

    /** `Settings.delete(id)`. */
    method DeleteSetting(id: Id) returns (o: Outcome)
      requires Valid()
      modifies this`settings
      ensures Valid()
      ensures o == if HasId(old(settings), SettingIdOf, id) then Done else Failed(NotFound)
      ensures settings == DeleteId(old(settings), SettingIdOf, id)
    {
      var k := FirstIndex(settings, (s: Setting) => SettingIdOf(s) == id);
      if k == |settings| {
        return Failed(NotFound);
      }
      settings := RemoveAt(settings, k);
      o := Done;
    }
  }
}
