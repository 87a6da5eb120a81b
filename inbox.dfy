/**
 * The inbox page: the message list is grouped into one conversation per
 * customer, newest conversation first; opening a conversation or replying in it
 * marks that customer's unread inbound messages as read.
 */
module Inbox {
  import opened Optional
  import opened Seqs
  import opened Records
  import opened Gateway

  /** One entry of the conversation list, with the fields the page builds for it. */
  datatype Conversation = Conversation(
    customerId: Id,
    customerName: string,
    customer: Option<Customer>,
    jobs: seq<Job>,
    latestJob: Option<Job>,
    jobStatus: Option<string>,
    lastMessage: Body,
    lastMessageTime: nat,
    channel: string,
    unreadCount: nat,
    messages: seq<Message>)

  /** `customers.find(c => c.id === id)`. */
  function CustomerById(customers: seq<Customer>, id: Id): (r: Option<Customer>)
    ensures r.Some? <==> exists c :: c in customers && c.id == id
    ensures r.Some? ==> r.value in customers && r.value.id == id
  {
    Find(customers, (c: Customer) => c.id == id)
  }

  /** `customer?.full_name || 'Unknown'`. */
  function DisplayName(c: Option<Customer>): (name: string)
    ensures name != ""
    ensures c.Some? && Present(c.value.fullName) ==> name == c.value.fullName.value
  {
    if c.Some? && Present(c.value.fullName) then c.value.fullName.value else "Unknown"
  }

  /**
   * The entry created when the grouping meets the first (newest) message `m` of
   * a customer: its text, time and channel stand for the whole conversation.
   */
  function Opened(m: Message, customers: seq<Customer>, jobs: seq<Job>): Conversation {
    var customer := CustomerById(customers, m.customerId);
    var customerJobs := KeyFilter(jobs, JobCustomer, m.customerId);
    var latest := if customerJobs == [] then None else Some(customerJobs[0]);
    Conversation(
      m.customerId, DisplayName(customer), customer, customerJobs, latest,
      if latest.Some? then Some(latest.value.status) else None,
      m.body, m.created, m.channel, 0, [])
  }

  /** The entry after the grouping pushes `m` onto it. */
  function Added(c: Conversation, m: Message): Conversation {
    c.(messages := c.messages + [m],
       unreadCount := c.unreadCount + if IsUnreadInbound(m) then 1 else 0)
  }

  /**
   * What the conversation of customer `k` holds once all of `msgs` is grouped:
   * all of that customer's messages in list order, the number of them that are
   * unread inbound, and the header fields of the first of them.
   */
  function Summary(msgs: seq<Message>, customers: seq<Customer>, jobs: seq<Job>, k: Id): (c: Conversation)
    requires k in Keys(msgs, MessageCustomer)
    ensures c.customerId == k
  {
    var ms := KeyFilter(msgs, MessageCustomer, k);
    assert ms != [] by {
      var x :| x in msgs && MessageCustomer(x) == k;
      assert x in ms;
    }
    assert ms[0] in ms;
    Opened(ms[0], customers, jobs).(messages := ms, unreadCount := Count(ms, IsUnreadInbound))
  }

  /** The summaries of the customers `ks`, in that order. */
  function Summaries(msgs: seq<Message>, customers: seq<Customer>, jobs: seq<Job>, ks: seq<Id>): (r: seq<Conversation>)
    requires forall k :: k in ks ==> k in Keys(msgs, MessageCustomer)
    ensures |r| == |ks|
    ensures forall i :: 0 <= i < |ks| ==> r[i] == Summary(msgs, customers, jobs, ks[i])
  {
    seq(|ks|, i requires 0 <= i < |ks| => Summary(msgs, customers, jobs, ks[i]))
  }

  /** Each entry is not newer than the one before it. */
  predicate NewestFirst(s: seq<Conversation>) {
    forall i :: 0 < i < |s| ==> s[i - 1].lastMessageTime >= s[i].lastMessageTime
  }

  predicate DistinctCustomers(s: seq<Conversation>) {
    forall i, j :: 0 <= i < j < |s| ==> s[i].customerId != s[j].customerId
  }

  /** Putting an entry at least as new as the head in front keeps the order. */
  lemma NewestFirstCons(x: Conversation, t: seq<Conversation>)
    requires NewestFirst(t)
    requires t != [] ==> x.lastMessageTime >= t[0].lastMessageTime
    ensures NewestFirst([x] + t)
  {
  }

  lemma NewestFirstTail(s: seq<Conversation>)
    requires NewestFirst(s) && s != []
    ensures NewestFirst(s[1..])
    ensures |s| > 1 ==> s[0].lastMessageTime >= s[1].lastMessageTime
  {
  }

  /** Inserts `c` before the first entry that is not newer than it. */
  function InsertByRecency(c: Conversation, s: seq<Conversation>): (r: seq<Conversation>)
    ensures |r| == |s| + 1
    ensures r[0] == c || (s != [] && r[0] == s[0])
    ensures multiset(r) == multiset(s) + multiset{c}
    decreases |s|
  {
    if s == [] || s[0].lastMessageTime <= c.lastMessageTime then [c] + s
    else
      assert s == [s[0]] + s[1..];
      [s[0]] + InsertByRecency(c, s[1..])
  }

  /** Inserting into a list sorted newest first keeps it sorted. */
  lemma {:induction false} InsertKeepsNewestFirst(c: Conversation, s: seq<Conversation>)
    requires NewestFirst(s)
    ensures NewestFirst(InsertByRecency(c, s))
    decreases |s|
  {
    if s == [] || s[0].lastMessageTime <= c.lastMessageTime {
      NewestFirstCons(c, s);
    } else {
      NewestFirstTail(s);
      InsertKeepsNewestFirst(c, s[1..]);
      NewestFirstCons(s[0], InsertByRecency(c, s[1..]));
    }
  }

  /**
   * The sort by `last_message_time`, newest first. The comparator never answers
   * "equal" for different times, and entries with equal times keep their order.
   */
  function SortByRecency(s: seq<Conversation>): (r: seq<Conversation>)
    ensures multiset(r) == multiset(s)
    ensures NewestFirst(r)
    decreases |s|
  {
    if s == [] then []
    else
      assert s == [s[0]] + s[1..];
      var sorted := SortByRecency(s[1..]);
      InsertKeepsNewestFirst(s[0], sorted);
      InsertByRecency(s[0], sorted)
  }

  /** The entries whose last message is at time `t`. */
  function AtTime(t: nat): Conversation -> bool {
    (c: Conversation) => c.lastMessageTime == t
  }

  /** Inserting `c` puts it in front of every entry with the same time and keeps their order. */
  lemma {:induction false} InsertStable(c: Conversation, s: seq<Conversation>, t: nat)
    requires NewestFirst(s)
    ensures Filter(InsertByRecency(c, s), AtTime(t)) ==
      (if c.lastMessageTime == t then [c] else []) + Filter(s, AtTime(t))
    decreases |s|
  {
    var p := AtTime(t);
    if s == [] || s[0].lastMessageTime <= c.lastMessageTime {
      assert InsertByRecency(c, s) == [c] + s;
      FilterCons(c, s, p);
    } else {
      var x, rest := s[0], s[1..];
      assert s == [x] + rest;
      var r := InsertByRecency(c, rest);
      assert InsertByRecency(c, s) == [x] + r;
      NewestFirstTail(s);
      InsertStable(c, rest, t);
      FilterCons(x, r, p);
      FilterCons(x, rest, p);
      if p(x) {
        assert !p(c);
        assert Filter(r, p) == Filter(rest, p);
      } else {
        assert Filter(s, p) == Filter(rest, p);
      }
    }
  }

  /**
   * The sort is stable: for every time, the entries with that time appear in the
   * order of the input, as `Array.prototype.sort` keeps them.
   */
  lemma {:induction false} SortByRecencyStable(s: seq<Conversation>, t: nat)
    ensures Filter(SortByRecency(s), AtTime(t)) == Filter(s, AtTime(t))
    decreases |s|
  {
    if s != [] {
      SortByRecencyStable(s[1..], t);
      InsertStable(s[0], SortByRecency(s[1..]), t);
      assert [s[0]] + s[1..] == s;
      FilterCons(s[0], s[1..], AtTime(t));
    }
  }

  /** In a list sorted newest first, every entry is at least as new as every later one. */
  lemma {:induction false} NewestFirstPairwise(s: seq<Conversation>, i: nat, j: nat)
    requires NewestFirst(s) && i <= j < |s|
    ensures s[i].lastMessageTime >= s[j].lastMessageTime
    decreases j - i
  {
    if i < j {
      NewestFirstPairwise(s, i + 1, j);
    }
  }

  /** The conversation list the page shows for the given message, customer and job lists. */
  function Conversations(msgs: seq<Message>, customers: seq<Customer>, jobs: seq<Job>): (r: seq<Conversation>)
    ensures NewestFirst(r)
    ensures multiset(r) == multiset(Summaries(msgs, customers, jobs, Keys(msgs, MessageCustomer)))
  {
    SortByRecency(Summaries(msgs, customers, jobs, Keys(msgs, MessageCustomer)))
  }

  /** The number of messages added to a summary grows by one with each message of its customer. */
  lemma SummaryAppend(pre: seq<Message>, m: Message, customers: seq<Customer>, jobs: seq<Job>, k: Id)
    requires k in Keys(pre + [m], MessageCustomer)
    ensures k != m.customerId ==>
      k in Keys(pre, MessageCustomer) &&
      Summary(pre + [m], customers, jobs, k) == Summary(pre, customers, jobs, k)
    ensures k == m.customerId && k in Keys(pre, MessageCustomer) ==>
      Summary(pre + [m], customers, jobs, k) == Added(Summary(pre, customers, jobs, k), m)
    ensures k == m.customerId && k !in Keys(pre, MessageCustomer) ==>
      Summary(pre + [m], customers, jobs, k) == Added(Opened(m, customers, jobs), m)
  {
    KeysAppend(pre, m, MessageCustomer);
    KeyFilterAppend(pre, m, MessageCustomer, k);
    var ms := KeyFilter(pre, MessageCustomer, k);
    if k == m.customerId {
      CountAppend(ms, m, IsUnreadInbound);
      if k !in Keys(pre, MessageCustomer) {
        KeyFilterOfAbsentKey(pre, MessageCustomer, k);
        assert ms + [m] == [m];
      } else {
        assert ms != [] by {
          var x :| x in pre && MessageCustomer(x) == k;
          assert x in ms;
        }
        assert (ms + [m])[0] == ms[0];
      }
    }
  }

  /** The loop state after grouping the prefix `pre`: one entry per customer seen, each its summary so far. */
  ghost predicate GroupedUpTo(pre: seq<Message>, convMap: map<Id, Conversation>, order: seq<Id>,
                              customers: seq<Customer>, jobs: seq<Job>)
  {
    && order == Keys(pre, MessageCustomer)
    && (forall k :: k in convMap <==> k in order)
    && (forall k :: k in order ==> convMap[k] == Summary(pre, customers, jobs, k))
  }

  /** One step of the grouping loop keeps the loop state. */
  lemma GroupStep(pre: seq<Message>, m: Message, convMap: map<Id, Conversation>, order: seq<Id>,
                  convMap': map<Id, Conversation>, order': seq<Id>, customers: seq<Customer>, jobs: seq<Job>)
    requires GroupedUpTo(pre, convMap, order, customers, jobs)
    requires convMap' == convMap[m.customerId := Added(Entry(convMap, m, customers, jobs), m)]
    requires order' == if m.customerId in convMap then order else order + [m.customerId]
    ensures GroupedUpTo(pre + [m], convMap', order', customers, jobs)
  {
    KeysAppend(pre, m, MessageCustomer);
    forall k | k in order'
      ensures convMap'[k] == Summary(pre + [m], customers, jobs, k)
    {
      GroupStepAt(pre, m, convMap, convMap', customers, jobs, k);
    }
  }

  /** The entry of one customer after a step of the grouping loop is that customer's summary. */
  lemma GroupStepAt(pre: seq<Message>, m: Message, convMap: map<Id, Conversation>,
                    convMap': map<Id, Conversation>, customers: seq<Customer>, jobs: seq<Job>, k: Id)
    requires k in Keys(pre + [m], MessageCustomer)
    requires k in convMap <==> k in Keys(pre, MessageCustomer)
    requires k in convMap ==> convMap[k] == Summary(pre, customers, jobs, k)
    requires m.customerId in convMap <==> m.customerId in Keys(pre, MessageCustomer)
    requires m.customerId in convMap ==> convMap[m.customerId] == Summary(pre, customers, jobs, m.customerId)
    requires convMap' == convMap[m.customerId := Added(Entry(convMap, m, customers, jobs), m)]
    ensures k in convMap' && convMap'[k] == Summary(pre + [m], customers, jobs, k)
  {
    SummaryAppend(pre, m, customers, jobs, k);
  }

  /** The entry of `m`'s customer, created by `Opened` when the map does not hold one yet. */
  function Entry(convMap: map<Id, Conversation>, m: Message, customers: seq<Customer>, jobs: seq<Job>): Conversation {
    if m.customerId in convMap then convMap[m.customerId] else Opened(m, customers, jobs)
  }

  /** `Array.from(map.values())`: the entries in the insertion order of their keys. */
  function ValuesInOrder(convMap: map<Id, Conversation>, order: seq<Id>): (r: seq<Conversation>)
    requires forall k :: k in order ==> k in convMap
    ensures |r| == |order|
    ensures forall j :: 0 <= j < |order| ==> r[j] == convMap[order[j]]
  {
    seq(|order|, j requires 0 <= j < |order| => convMap[order[j]])
  }

  /** Once the whole list is grouped, the entries in insertion order are the summaries in key order. */
  lemma GroupedValues(msgs: seq<Message>, convMap: map<Id, Conversation>, order: seq<Id>,
                      customers: seq<Customer>, jobs: seq<Job>)
    requires GroupedUpTo(msgs, convMap, order, customers, jobs)
    ensures ValuesInOrder(convMap, order) == Summaries(msgs, customers, jobs, Keys(msgs, MessageCustomer))
  {
  }

  /** The grouping loop of the page: a map from customer id to conversation, filled in message order. */
  method GroupByCustomer(msgs: seq<Message>, customers: seq<Customer>, jobs: seq<Job>)
    returns (convMap: map<Id, Conversation>, order: seq<Id>)
    ensures GroupedUpTo(msgs, convMap, order, customers, jobs)
  {
    convMap, order := map[], [];
    var i := 0;
    while i < |msgs|
      invariant 0 <= i <= |msgs|
      invariant GroupedUpTo(msgs[..i], convMap, order, customers, jobs)
    {
      var m := msgs[i];
      var order' := if m.customerId in convMap then order else order + [m.customerId];
      var convMap' := convMap[m.customerId := Added(Entry(convMap, m, customers, jobs), m)];
      PrefixStep(msgs, i);
      GroupStep(msgs[..i], m, convMap, order, convMap', order', customers, jobs);
      convMap, order := convMap', order';
      i := i + 1;
    }
    assert msgs[..i] == msgs;
  }

  /** The conversation list of the page: the grouped entries, in key insertion order, sorted newest first. */
  method GroupConversations(msgs: seq<Message>, customers: seq<Customer>, jobs: seq<Job>) returns (convs: seq<Conversation>)
    ensures convs == Conversations(msgs, customers, jobs)
  {
    var convMap, order := GroupByCustomer(msgs, customers, jobs);
    GroupedValues(msgs, convMap, order, customers, jobs);
    convs := SortByRecency(ValuesInOrder(convMap, order));
  }

  function UnreadOf(c: Conversation): nat { c.unreadCount }

  function MessageCountOf(c: Conversation): nat { |c.messages| }

  lemma {:induction false} InsertSum(c: Conversation, s: seq<Conversation>, f: Conversation -> nat)
    ensures SumOf(InsertByRecency(c, s), f) == f(c) + SumOf(s, f)
    decreases |s|
  {
    if s == [] || s[0].lastMessageTime <= c.lastMessageTime {
      assert ([c] + s)[1..] == s;
    } else {
      var r := InsertByRecency(c, s[1..]);
      InsertSum(c, s[1..], f);
      assert ([s[0]] + r)[1..] == r;
    }
  }

  lemma {:induction false} SortSum(s: seq<Conversation>, f: Conversation -> nat)
    ensures SumOf(SortByRecency(s), f) == SumOf(s, f)
    decreases |s|
  {
    if s != [] {
      SortSum(s[1..], f);
      InsertSum(s[0], SortByRecency(s[1..]), f);
    }
  }

  lemma SummariesAppend(msgs: seq<Message>, customers: seq<Customer>, jobs: seq<Job>, ks: seq<Id>)
    requires forall k :: k in ks ==> k in Keys(msgs, MessageCustomer)
    requires ks != []
    ensures Summaries(msgs, customers, jobs, ks)
         == Summaries(msgs, customers, jobs, ks[..|ks| - 1]) + [Summary(msgs, customers, jobs, ks[|ks| - 1])]
  {
  }

  /** Summed over the summaries of `ks`, the unread and message counts are those of the groups of `ks`. */
  lemma {:induction false} SummariesSum(msgs: seq<Message>, customers: seq<Customer>, jobs: seq<Job>, ks: seq<Id>)
    requires forall k :: k in ks ==> k in Keys(msgs, MessageCustomer)
    ensures SumOf(Summaries(msgs, customers, jobs, ks), UnreadOf) == SumOver(msgs, MessageCustomer, ks, IsUnreadInbound)
    ensures SumOf(Summaries(msgs, customers, jobs, ks), MessageCountOf) == SumOver(msgs, MessageCustomer, ks, Always)
    decreases |ks|
  {
    if ks != [] {
      var ks' := ks[..|ks| - 1];
      var k := ks[|ks| - 1];
      SummariesSum(msgs, customers, jobs, ks');
      var s := Summaries(msgs, customers, jobs, ks);
      var s' := Summaries(msgs, customers, jobs, ks');
      var c := Summary(msgs, customers, jobs, k);
      SummariesAppend(msgs, customers, jobs, ks);
      SumOfConcat(s', [c], UnreadOf);
      SumOfConcat(s', [c], MessageCountOf);
      CountAlways(KeyFilter(msgs, MessageCustomer, k));
    }
  }

  /** Customer `k` has a conversation exactly when some message of the list is theirs. */
  lemma ConversationOfCustomer(msgs: seq<Message>, customers: seq<Customer>, jobs: seq<Job>, k: Id)
    ensures (exists c :: c in Conversations(msgs, customers, jobs) && c.customerId == k)
        <==> (exists m :: m in msgs && m.customerId == k)
  {
    if exists m :: m in msgs && m.customerId == k {
      SummaryListed(msgs, customers, jobs, k);
    }
    if c :| c in Conversations(msgs, customers, jobs) && c.customerId == k {
      ConversationIsSummary(msgs, customers, jobs, c);
    }
  }

  /** Each customer's summary is in the conversation list. */
  lemma SummaryListed(msgs: seq<Message>, customers: seq<Customer>, jobs: seq<Job>, k: Id)
    requires k in Keys(msgs, MessageCustomer)
    ensures Summary(msgs, customers, jobs, k) in Conversations(msgs, customers, jobs)
  {
    var ks := Keys(msgs, MessageCustomer);
    var i :| 0 <= i < |ks| && ks[i] == k;
    assert Summaries(msgs, customers, jobs, ks)[i] in multiset(Conversations(msgs, customers, jobs));
  }

  /** No customer has two conversations. */
  lemma ConversationsDistinct(msgs: seq<Message>, customers: seq<Customer>, jobs: seq<Job>)
    ensures DistinctCustomers(Conversations(msgs, customers, jobs))
  {
    var ks := Keys(msgs, MessageCustomer);
    var s := Summaries(msgs, customers, jobs, ks);
    assert DistinctCustomers(s);
    SortKeepsDistinct(s);
  }

  lemma DistinctCons(x: Conversation, t: seq<Conversation>)
    requires DistinctCustomers(t)
    requires forall y :: y in t ==> y.customerId != x.customerId
    ensures DistinctCustomers([x] + t)
  {
    var r := [x] + t;
    forall i, j | 0 <= i < j < |r| ensures r[i].customerId != r[j].customerId {
      if i == 0 {
        assert r[j] == t[j - 1];
      } else {
        assert r[i] == t[i - 1] && r[j] == t[j - 1];
      }
    }
  }

  lemma DistinctTail(s: seq<Conversation>)
    requires DistinctCustomers(s) && s != []
    ensures DistinctCustomers(s[1..])
    ensures forall y :: y in s[1..] ==> y.customerId != s[0].customerId
  {
    forall y | y in s[1..] ensures y.customerId != s[0].customerId {
      var j :| 0 <= j < |s[1..]| && s[1..][j] == y;
      assert s[j + 1] == y;
    }
  }

  /** The entries of an insertion are those of the list and the inserted one. */
  lemma InsertMembers(c: Conversation, s: seq<Conversation>)
    ensures forall x :: x in InsertByRecency(c, s) <==> x in s || x == c
  {
    var r := InsertByRecency(c, s);
    assert forall x :: x in r <==> x in multiset(r);
  }

  lemma {:induction false} InsertKeepsDistinct(c: Conversation, s: seq<Conversation>)
    requires DistinctCustomers(s)
    requires forall x :: x in s ==> x.customerId != c.customerId
    ensures DistinctCustomers(InsertByRecency(c, s))
    decreases |s|
  {
    if s == [] || s[0].lastMessageTime <= c.lastMessageTime {
      DistinctCons(c, s);
    } else {
      DistinctTail(s);
      InsertKeepsDistinct(c, s[1..]);
      InsertMembers(c, s[1..]);
      DistinctCons(s[0], InsertByRecency(c, s[1..]));
    }
  }

  lemma {:induction false} SortKeepsDistinct(s: seq<Conversation>)
    requires DistinctCustomers(s)
    ensures DistinctCustomers(SortByRecency(s))
    decreases |s|
  {
    if s != [] {
      var sorted := SortByRecency(s[1..]);
      assert DistinctCustomers(s[1..]);
      SortKeepsDistinct(s[1..]);
      assert forall x :: x in sorted ==> x in s[1..] by {
        assert forall x :: x in sorted <==> x in multiset(sorted);
      }
      forall x | x in sorted ensures x.customerId != s[0].customerId {
        var j :| 0 <= j < |s[1..]| && s[1..][j] == x;
        assert s[j + 1] == x;
      }
      InsertKeepsDistinct(s[0], sorted);
    }
  }

  /** Each conversation in the list is the summary of its customer's messages. */
  lemma ConversationIsSummary(msgs: seq<Message>, customers: seq<Customer>, jobs: seq<Job>, c: Conversation)
    requires c in Conversations(msgs, customers, jobs)
    ensures c.customerId in Keys(msgs, MessageCustomer)
    ensures c == Summary(msgs, customers, jobs, c.customerId)
    ensures c.messages == KeyFilter(msgs, MessageCustomer, c.customerId)
    ensures c.unreadCount == Count(c.messages, IsUnreadInbound)
  {
    var s := Summaries(msgs, customers, jobs, Keys(msgs, MessageCustomer));
    assert c in multiset(s);
    var i :| 0 <= i < |s| && s[i] == c;
  }

  /** The badges of all conversations add up to the unread inbound messages of the whole list. */
  lemma UnreadTotal(msgs: seq<Message>, customers: seq<Customer>, jobs: seq<Job>)
    ensures SumOf(Conversations(msgs, customers, jobs), UnreadOf) == Count(msgs, IsUnreadInbound)
  {
    var ks := Keys(msgs, MessageCustomer);
    SortSum(Summaries(msgs, customers, jobs, ks), UnreadOf);
    SummariesSum(msgs, customers, jobs, ks);
    PartitionCount(msgs, MessageCustomer, IsUnreadInbound);
  }

  /** Every message of the list lands in exactly one conversation. */
  lemma MessageTotal(msgs: seq<Message>, customers: seq<Customer>, jobs: seq<Job>)
    ensures SumOf(Conversations(msgs, customers, jobs), MessageCountOf) == |msgs|
  {
    var ks := Keys(msgs, MessageCustomer);
    SortSum(Summaries(msgs, customers, jobs, ks), MessageCountOf);
    SummariesSum(msgs, customers, jobs, ks);
    PartitionCount(msgs, MessageCustomer, Always);
    CountAlways(msgs);
  }

  /** `conversations.find(c => c.customer_id === k)`: the open thread of customer `k`. */
  function Thread(convs: seq<Conversation>, k: Id): (r: Option<Conversation>)
    ensures r.Some? ==> r.value in convs && r.value.customerId == k
    ensures r.None? ==> forall c :: c in convs ==> c.customerId != k
  {
    Find(convs, (c: Conversation) => c.customerId == k)
  }

  /** The thread shown for a customer with messages is that customer's summary. */
  lemma ThreadIsSummary(msgs: seq<Message>, customers: seq<Customer>, jobs: seq<Job>, k: Id)
    requires k in Keys(msgs, MessageCustomer)
    ensures Thread(Conversations(msgs, customers, jobs), k) == Some(Summary(msgs, customers, jobs, k))
  {
    var r := Conversations(msgs, customers, jobs);
    ConversationOfCustomer(msgs, customers, jobs, k);
    var x :| x in msgs && MessageCustomer(x) == k;
    var t := Thread(r, k);
    assert t.Some?;
    ConversationIsSummary(msgs, customers, jobs, t.value);
  }

  /** `m` after `Message.update(m.id, { is_read: true })` when it is an unread inbound message of `cid`. */
  function ReadIfUnreadFrom(cid: Id, m: Message): Message {
    if m.customerId == cid && IsUnreadInbound(m) then m.(isRead := true) else m
  }

  /** The message list after the unread inbound messages of `cid` are marked read. */
  function MarkedRead(msgs: seq<Message>, cid: Id): (r: seq<Message>)
    ensures |r| == |msgs|
    ensures forall i :: 0 <= i < |msgs| ==> r[i] == ReadIfUnreadFrom(cid, msgs[i])
  {
    seq(|msgs|, i requires 0 <= i < |msgs| => ReadIfUnreadFrom(cid, msgs[i]))
  }

  lemma MarkedReadAppend(msgs: seq<Message>, m: Message, cid: Id)
    ensures MarkedRead(msgs + [m], cid) == MarkedRead(msgs, cid) + [ReadIfUnreadFrom(cid, m)]
  {
  }

  /** Marking read twice is marking read once. */
  lemma MarkedReadIdempotent(msgs: seq<Message>, cid: Id)
    ensures MarkedRead(MarkedRead(msgs, cid), cid) == MarkedRead(msgs, cid)
  {
  }

  /**
   * After marking, `cid`'s conversation has no unread message, every other
   * customer's messages are as they were, and the unread total drops by exactly
   * the badge `cid`'s conversation had.
   */
  lemma {:induction false} MarkedReadCounts(msgs: seq<Message>, cid: Id, k: Id)
    ensures Count(KeyFilter(MarkedRead(msgs, cid), MessageCustomer, cid), IsUnreadInbound) == 0
    ensures k != cid ==> KeyFilter(MarkedRead(msgs, cid), MessageCustomer, k) == KeyFilter(msgs, MessageCustomer, k)
    ensures Count(MarkedRead(msgs, cid), IsUnreadInbound) + Count(KeyFilter(msgs, MessageCustomer, cid), IsUnreadInbound)
            == Count(msgs, IsUnreadInbound)
    decreases |msgs|
  {
    if msgs != [] {
      var pre := msgs[..|msgs| - 1];
      var m := msgs[|msgs| - 1];
      assert msgs == pre + [m];
      MarkedReadCounts(pre, cid, k);
      MarkedReadAppend(pre, m, cid);
      var m' := ReadIfUnreadFrom(cid, m);
      var mr := MarkedRead(pre, cid);
      KeyFilterAppend(mr, m', MessageCustomer, cid);
      KeyFilterAppend(mr, m', MessageCustomer, k);
      KeyFilterAppend(pre, m, MessageCustomer, cid);
      KeyFilterAppend(pre, m, MessageCustomer, k);
      CountAppend(KeyFilter(mr, MessageCustomer, cid), m', IsUnreadInbound);
      CountAppend(KeyFilter(pre, MessageCustomer, cid), m, IsUnreadInbound);
      CountAppend(mr, m', IsUnreadInbound);
      CountAppend(pre, m, IsUnreadInbound);
    } else {
      assert MarkedRead(msgs, cid) == [];
    }
  }

  /** The message list part-way through the read-marking loop: the first `i` messages are done. */
  ghost predicate MarkedUpTo(cur: seq<Message>, snapshot: seq<Message>, cid: Id, i: nat) {
    && |cur| == |snapshot|
    && forall k :: 0 <= k < |snapshot| ==>
         cur[k] == if k < i then ReadIfUnreadFrom(cid, snapshot[k]) else snapshot[k]
  }

  /** Updating the `i`-th message by its id touches no other message, since ids are unique. */
  lemma MarkStep(cur: seq<Message>, snapshot: seq<Message>, cid: Id, i: nat, bound: nat)
    requires IdsUniqueBelow(snapshot, MessageIdOf, bound)
    requires i < |snapshot| && MarkedUpTo(cur, snapshot, cid, i)
    ensures snapshot[i].customerId == cid && IsUnreadInbound(snapshot[i]) ==>
      MarkedUpTo(UpdateWhere(cur, MessageIdOf, snapshot[i].id, AsRead), snapshot, cid, i + 1)
    ensures !(snapshot[i].customerId == cid && IsUnreadInbound(snapshot[i])) ==>
      MarkedUpTo(cur, snapshot, cid, i + 1)
  {
  }

  lemma MarkedAll(cur: seq<Message>, snapshot: seq<Message>, cid: Id)
    requires MarkedUpTo(cur, snapshot, cid, |snapshot|)
    ensures cur == MarkedRead(snapshot, cid)
  {
  }

  /** The unread count of `cid`'s conversation grows by one exactly with an unread inbound message of `cid`. */
  lemma UnreadFromAppend(pre: seq<Message>, m: Message, cid: Id)
    ensures Count(KeyFilter(pre + [m], MessageCustomer, cid), IsUnreadInbound)
         == Count(KeyFilter(pre, MessageCustomer, cid), IsUnreadInbound)
            + (if m.customerId == cid && IsUnreadInbound(m) then 1 else 0)
  {
    KeyFilterAppend(pre, m, MessageCustomer, cid);
    if m.customerId == cid {
      CountAppend(KeyFilter(pre, MessageCustomer, cid), m, IsUnreadInbound);
    } else {
      assert KeyFilter(pre, MessageCustomer, cid) + [] == KeyFilter(pre, MessageCustomer, cid);
    }
  }

  /** Marking read keeps every message's id, so the ids stay unique. */
  lemma MarkedReadKeepsIds(msgs: seq<Message>, cid: Id, bound: nat)
    requires IdsUniqueBelow(msgs, MessageIdOf, bound)
    ensures IdsUniqueBelow(MarkedRead(msgs, cid), MessageIdOf, bound)
  {
  }

  /**
   * The read-marking of the page: one `Message.update` per unread inbound
   * message of `cid` in the list, all of them applied. Returns the number of
   * updates, which is the badge the conversation showed.
   */
  method MarkConversationRead(store: Store, cid: Id) returns (writes: nat)
    requires store.Valid()
    modifies store`messages
    ensures store.Valid()
    ensures store.messages == MarkedRead(old(store.messages), cid)
    ensures writes == Count(KeyFilter(old(store.messages), MessageCustomer, cid), IsUnreadInbound)
  {
    var snapshot := store.messages;
    ghost var bound := store.nextId;
    writes := 0;
    var i := 0;
    while i < |snapshot|
      invariant 0 <= i <= |snapshot|
      invariant IdsUniqueBelow(snapshot, MessageIdOf, bound)
      invariant MarkedUpTo(store.messages, snapshot, cid, i)
      invariant writes == Count(KeyFilter(snapshot[..i], MessageCustomer, cid), IsUnreadInbound)
    {
      var m := snapshot[i];
      PrefixStep(snapshot, i);
      UnreadFromAppend(snapshot[..i], m, cid);
      MarkStep(store.messages, snapshot, cid, i, bound);
      if m.customerId == cid && IsUnreadInbound(m) {
        var _ := store.SetMessageRead(m.id);
        writes := writes + 1;
      }
      i := i + 1;
    }
    MarkedAll(store.messages, snapshot, cid);
    MarkedReadKeepsIds(snapshot, cid, bound);
    assert snapshot[..i] == snapshot;
  }

  /** `selectedConversation.latest_job?.id`. */
  function LatestJobId(c: Conversation): Option<Id> {
    if c.latestJob.Some? then Some(c.latestJob.value.id) else None
  }

  /** The message a reply in conversation `c` creates: outbound, already read, typed by the operator. */
  function Reply(c: Conversation, channel: string, body: string): (m: Message)
    ensures m.customerId == c.customerId && m.direction == Outbound && m.isRead && !m.isAuto
    ensures m.body == Typed(body) && m.channel == channel
    ensures m.jobId == LatestJobId(c)
  {
    NewMessage(c.customerId, LatestJobId(c), channel, Typed(body), true, false)
  }

  /**
   * Creates the reply in conversation `c`, then marks the conversation read. The
   * reply is outbound, so marking before or after its creation updates the same
   * messages.
   */
  method SendReply(store: Store, c: Conversation, channel: string, body: string) returns (m: Message)
    requires store.Valid()
    modifies store`messages, store`nextId
    ensures store.Valid()
    ensures m == Reply(c, channel, body).(id := old(store.nextId), created := store.clock)
    ensures store.messages == MarkedRead(old(store.messages), c.customerId) + [m]
    ensures store.nextId == old(store.nextId) + 1
  {
    m := store.CreateMessage(Reply(c, channel, body));
    var _ := MarkConversationRead(store, c.customerId);
    MarkedReadAppend(old(store.messages), m, c.customerId);
  }

  /** The state of the inbox page: the open conversation, the reply channel and the composer text. */
  class InboxPage {
    var selected: Option<Conversation>
    var channel: string
    var composer: string

    constructor ()
      ensures selected == None && channel == TextChannel && composer == ""
    {
      selected, channel, composer := None, TextChannel, "";
    }

    /** Opens a conversation and marks its unread inbound messages read. */
    method SelectConversation(store: Store, conv: Conversation) returns (writes: nat)
      requires store.Valid()
      modifies this`selected, store`messages
      ensures store.Valid()
      ensures selected == Some(conv)
      ensures store.messages == MarkedRead(old(store.messages), conv.customerId)
      ensures writes == Count(KeyFilter(old(store.messages), MessageCustomer, conv.customerId), IsUnreadInbound)
    {
      selected := Some(conv);
      writes := MarkConversationRead(store, conv.customerId);
    }

    /**
     * Sends `body` in the open conversation: creates the reply, marks the
     * conversation read and clears the composer. Without an open conversation
     * nothing happens.
     */
    method SendMessage(store: Store, body: string) returns (sent: Option<Message>)
      requires store.Valid()
      modifies this`composer, store`messages, store`nextId
      ensures store.Valid()
      ensures selected.None? ==>
        sent.None? && store.messages == old(store.messages) && store.nextId == old(store.nextId) && composer == old(composer)
      ensures selected.Some? ==>
        && sent == Some(Reply(selected.value, channel, body).(id := old(store.nextId), created := store.clock))
        && store.messages == MarkedRead(old(store.messages), selected.value.customerId) + [sent.value]
        && store.nextId == old(store.nextId) + 1
        && composer == ""
    {
      if selected.None? {
        return None;
      }
      var m := SendReply(store, selected.value, channel, body);
      sent := Some(m);
      composer := "";
    }

    /** Picking a quick reply replaces the composer text with the template. */
    method QuickReply(template: string)
      modifies this`composer
      ensures composer == template
    {
      composer := template;
    }

    method SetChannel(ch: string)
      modifies this`channel
      ensures channel == ch
    {
      channel := ch;
    }
  }
}
