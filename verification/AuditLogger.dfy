/** The loop of logger_service/worker.py itself, on the queue and the table, with failing
    commits and with the death of the worker at any point. */
module AuditLogger {
  import opened Broker
  import opened AuditLog

  /** How a commit ends: refused, or done although the session raises, or done. */
  datatype Fate = Committed | Refused | CommittedButRaised

  /** One call of process_batch: how many of how many messages were settled before it ended. */
  datatype Flushed = Flushed(fate: Fate, settled: nat, size: nat)

  /** No row of it was committed without its message being acknowledged. */
  predicate Clean(f: Flushed) { f.fate.Refused? || (f.fate.Committed? && f.settled == f.size) }

  predicate AllClean(fs: seq<Flushed>) { forall i :: 0 <= i < |fs| ==> Clean(fs[i]) }

  predicate AllCommitted(fs: seq<Flushed>) { forall i :: 0 <= i < |fs| ==> fs[i].fate.Committed? }

  lemma MoreFlushes(a: seq<Flushed>, b: seq<Flushed>)
    ensures AllClean(a + b) <==> AllClean(a) && AllClean(b)
    ensures AllCommitted(a + b) <==> AllCommitted(a) && AllCommitted(b)
  {
    assert a == (a + b)[..|a|] && b == (a + b)[|a|..];
  }

  lemma OneFlush(f: Flushed)
    ensures (AllClean([f]) <==> Clean(f)) && (AllCommitted([f]) <==> f.fate.Committed?)
  {
    assert [f][0] == f;
  }

  lemma Sandwich(a: multiset<Row>, b: multiset<Row>, c: multiset<Row>)
    requires a <= b <= c
    ensures a <= c && (a == c ==> a == b == c)
  {
  }

  datatype Going = Continues | Leaves | Dies

  function Returned(m: Message<Body>): Message<Body> {
    m.(returned := m.returned + 1, place := if m.returned + 1 > DELIVERY_LIMIT then Dead else Ready)
  }

  lemma {:induction false} ReturnAllMeans(q: Queue<Body>, ms: seq<nat>)
    requires Distinct(ms)
    ensures |ReturnAll(q, ms)| == |q|
    ensures forall i :: 0 <= i < |q| ==> ReturnAll(q, ms)[i] == if i in ms && q[i].place.Held? then Returned(q[i]) else q[i]
  {
    if ms != [] {
      ReturnAllMeans(q, ms[..|ms| - 1]);
      assert ms == ms[..|ms| - 1] + [ms[|ms| - 1]];
    }
  }

  /** A message is dead because it was malformed, or because it came back too often. */
  predicate DeathsExplained(q: Queue<Body>) {
    forall i :: 0 <= i < |q| && q[i].place.Dead? ==> q[i].body.Malformed? || q[i].returned > DELIVERY_LIMIT
  }

  /** Nothing that was settled is unsettled, and nothing disappears. */
  predicate Onward(q: Queue<Body>, q': Queue<Body>) {
    && |q| <= |q'|
    && forall i :: 0 <= i < |q| ==>
         q'[i].body == q[i].body && (q[i].place.Acked? ==> q'[i].place.Acked?) && (q[i].place.Dead? ==> q'[i].place.Dead?)
  }

  /** The books: every delivery that is not settled is buffered or waiting in the inbox, and
      the table is what was acknowledged and `extra`. */
  ghost predicate BooksOk(d: Desk, inbox: seq<nat>, extra: multiset<Row>) {
    && BuffersOk(d) && Distinct(d.messages + inbox)
    && (forall i: nat :: Unsettled(d.store.queue, i) <==> i in d.messages || i in inbox)
    && DeathsExplained(d.store.queue) && Ledger(d.store, extra)
  }

  lemma DistinctParts(ms: seq<nat>, inbox: seq<nat>)
    requires Distinct(ms + inbox)
    ensures Distinct(ms) && Distinct(inbox) && forall i :: !(i in ms && i in inbox)
  {
    var all := ms + inbox;
    forall a, b | 0 <= a < |ms| && 0 <= b < |inbox| ensures ms[a] != inbox[b] {
      assert all[a] == ms[a] && all[|ms| + b] == inbox[b];
    }
    forall a, b | 0 <= a < b < |ms| ensures ms[a] != ms[b] {
      assert all[a] == ms[a] && all[b] == ms[b];
    }
    forall a, b | 0 <= a < b < |inbox| ensures inbox[a] != inbox[b] {
      assert all[|ms| + a] == inbox[a] && all[|ms| + b] == inbox[b];
    }
  }

  lemma DistinctSplit(ms: seq<nat>, inbox: seq<nat>, k: nat)
    requires Distinct(ms + inbox) && k <= |ms|
    ensures Distinct(ms[k..] + inbox) && Distinct(ms[k..])
    ensures forall i :: i in ms <==> i in ms[..k] || i in ms[k..]
    ensures forall i :: !(i in ms[..k] && (i in ms[k..] || i in inbox))
  {
    assert ms + inbox == ms[..k] + (ms[k..] + inbox);
    DistinctParts(ms[..k], ms[k..] + inbox);
    DistinctParts(ms[k..], inbox);
    hide Distinct;
    assert ms == ms[..k] + ms[k..];
    forall i ensures !(i in ms[..k] && (i in ms[k..] || i in inbox)) {
      assert i in ms[k..] || i in inbox ==> i in ms[k..] + inbox;
    }
  }

  lemma RestIsBuffered(d: Desk, q: Queue<Body>, k: nat, table: seq<Row>)
    requires BuffersOk(d) && k <= |d.messages| && |q| == |d.store.queue| && Distinct(d.messages[k..])
    requires forall i: nat | i < |q| && i in d.messages[k..] :: q[i] == d.store.queue[i]
    ensures BuffersOk(Desk(Store(q, table), d.data[k..], d.messages[k..]))
  {
    hide Distinct;
    var ms := d.messages[k..];
    forall j | 0 <= j < |ms| ensures Unsettled(q, ms[j]) && q[ms[j]].body == Entry(d.data[k..][j]) {
      assert ms[j] == d.messages[k + j] && ms[j] in ms;
    }
  }

  lemma RowsSplit(d: Desk, extra: multiset<Row>, k: nat)
    requires Ledger(d.store, extra) && k <= |d.data|
    ensures var acked := AckedRows(d.store.queue, |d.store.queue|);
            multiset(d.store.table + d.data) == (acked + multiset(d.data[..k])) + (extra + multiset(d.data[k..]))
  {
    hide AckedRows;
    assert d.data == d.data[..k] + d.data[k..];
  }

  /** After the commit and `k` acknowledgements. */
  lemma AckingPart(d: Desk, inbox: seq<nat>, extra: multiset<Row>, k: nat)
    requires BooksOk(d, inbox, extra) && k <= |d.messages|
    ensures var q := AckAll(d.store.queue, d.messages[..k]);
            && |d.data| == |d.messages| && Onward(d.store.queue, q)
            && BooksOk(Desk(Store(q, d.store.table + d.data), d.data[k..], d.messages[k..]), inbox, extra + multiset(d.data[k..]))
  {
    hide AckAll, AckedRows, Unsettled;
    var q := AckAll(d.store.queue, d.messages[..k]);
    AckedRowsOfBatch(d, k);
    RowsSplit(d, extra, k);
    AckedOnes(d.store.queue, d.messages[..k]);
    DistinctSplit(d.messages, inbox, k);
    RestIsBuffered(d, q, k, d.store.table + d.data);
    hide BuffersOk, Distinct, Onward, DeathsExplained;
  }

  lemma AckedOnes(q: Queue<Body>, ms: seq<nat>)
    ensures var q' := AckAll(q, ms);
            && Onward(q, q') && (DeathsExplained(q) ==> DeathsExplained(q'))
            && (forall i: nat :: Unsettled(q', i) <==> Unsettled(q, i) && i !in ms)
            && (forall i: nat | i < |q| && i !in ms :: q'[i] == q[i])
  {
    AckAllMeans(q, ms);
    hide AckAll;
  }

  lemma ReturningKeepsRows(q: Queue<Body>, ms: seq<nat>)
    requires Distinct(ms)
    ensures var q' := ReturnAll(q, ms); |q'| == |q| && AckedRows(q', |q'|) == AckedRows(q, |q|)
  {
    ReturnAllMeans(q, ms);
    hide ReturnAll, Distinct;
    AckedRowsStay(q, ReturnAll(q, ms));
  }

  /** After giving back the buffered messages, and the inbox too if the connection closes. */
  lemma GivingBack(d: Desk, inbox: seq<nat>, extra: multiset<Row>, ms: seq<nat>, left: seq<nat>)
    requires BooksOk(d, inbox, extra)
    requires (ms == d.messages && left == inbox) || (ms == d.messages + inbox && left == [])
    ensures var q := ReturnAll(d.store.queue, ms);
            Onward(d.store.queue, q) && BooksOk(Desk(d.store.(queue := q), [], []), left, extra)
  {
    hide ReturnAll, AckedRows, BuffersOk, Unsettled;
    DistinctParts(d.messages, inbox);
    var q := ReturnAll(d.store.queue, ms);
    ReturningKeepsRows(d.store.queue, ms);
    ReturnedOnes(d.store.queue, ms);
    NothingBuffered(Store(q, d.store.table));
    hide Distinct, Onward, DeathsExplained;
    assert [] + left == left;
  }

  lemma ReturnedOnes(q: Queue<Body>, ms: seq<nat>)
    requires Distinct(ms)
    ensures var q' := ReturnAll(q, ms);
            && Onward(q, q') && (DeathsExplained(q) ==> DeathsExplained(q'))
            && forall i: nat :: Unsettled(q', i) <==> Unsettled(q, i) && i !in ms
  {
    ReturnAllMeans(q, ms);
    hide ReturnAll, Distinct;
  }

  lemma NothingBuffered(s: Store)
    ensures BuffersOk(Desk(s, [], []))
  {
  }

  lemma PublishingKeepsRows(q: Queue<Body>, body: Body)
    ensures AckedRows(Publish(q, body), |q| + 1) == AckedRows(q, |q|)
  {
    AckedRowsGrow(q, Publish(q, body), |q|, |q|);
  }

  lemma PublishingKeeps(d: Desk, inbox: seq<nat>, extra: multiset<Row>, body: Body)
    requires BooksOk(d, inbox, extra)
    ensures var q := Publish(d.store.queue, body);
            Onward(d.store.queue, q) && BooksOk(d.(store := d.store.(queue := q)), inbox, extra)
  {
    PublishingKeepsRows(d.store.queue, body);
    hide AckedRows, Distinct;
  }

  /** The queue changes at one message, which is in no buffer. */
  lemma OneChangeKeeps(d: Desk, extra: multiset<Row>, i: nat, m: Message<Body>)
    requires BuffersOk(d) && DeathsExplained(d.store.queue) && Ledger(d.store, extra)
    requires i < |d.store.queue| && i !in d.messages && m.body == d.store.queue[i].body
    requires !d.store.queue[i].place.Acked? && !d.store.queue[i].place.Dead? && !m.place.Acked? && (m.place.Dead? ==> m.body.Malformed?)
    ensures var q := d.store.queue[i := m];
            && BuffersOk(d.(store := d.store.(queue := q))) && DeathsExplained(q) && Ledger(d.store.(queue := q), extra)
            && Onward(d.store.queue, q)
  {
    AckedRowsStay(d.store.queue, d.store.queue[i := m]);
    hide AckedRows, Distinct;
  }

  lemma DiscardingKeeps(d: Desk, inbox: seq<nat>, extra: multiset<Row>)
    requires BooksOk(d, inbox, extra) && inbox != [] && inbox[0] < |d.store.queue| && d.store.queue[inbox[0]].body.Malformed?
    ensures var q := DiscardNow(d.store.queue, inbox[0]);
            Onward(d.store.queue, q) && BooksOk(d.(store := d.store.(queue := q)), inbox[1..], extra)
  {
    hide BuffersOk, DeathsExplained, Ledger, Distinct, Onward;
    var i := inbox[0];
    FirstIsApart(d.messages, inbox);
    assert Unsettled(d.store.queue, i);
    OneChangeKeeps(d, extra, i, d.store.queue[i].(place := Dead));
  }

  lemma FirstIsApart(ms: seq<nat>, inbox: seq<nat>)
    requires Distinct(ms + inbox) && inbox != []
    ensures inbox[0] !in ms && inbox[0] !in inbox[1..] && Distinct(ms + inbox[1..]) && Distinct(ms)
    ensures forall i :: i in inbox <==> i == inbox[0] || i in inbox[1..]
    ensures ms + inbox == (ms + [inbox[0]]) + inbox[1..]
  {
    DistinctParts(ms, inbox);
    DistinctParts([inbox[0]], inbox[1..]);
    assert inbox == [inbox[0]] + inbox[1..];
    assert (ms + inbox)[..|ms|] == ms && (ms + inbox)[|ms|] == inbox[0] && (ms + inbox)[|ms| + 1..] == inbox[1..];
    forall a, b | 0 <= a < b < |ms + inbox[1..]| ensures (ms + inbox[1..])[a] != (ms + inbox[1..])[b] {
      var all := ms + inbox;
      assert (ms + inbox[1..])[a] == all[if a < |ms| then a else a + 1];
      assert (ms + inbox[1..])[b] == all[if b < |ms| then b else b + 1];
    }
  }

  lemma OneMoreWaits(ms: seq<nat>, inbox: seq<nat>, i: nat)
    requires Distinct(ms + inbox) && i !in ms && i !in inbox
    ensures Distinct(ms + (inbox + [i])) && forall j :: j in inbox + [i] <==> j in inbox || j == i
  {
    assert ms + (inbox + [i]) == (ms + inbox) + [i];
  }

  lemma DeliveringKeeps(d: Desk, inbox: seq<nat>, extra: multiset<Row>, i: nat)
    requires BooksOk(d, inbox, extra) && Waiting(d.store.queue, i)
    ensures var q := Deliver(d.store.queue, i);
            Onward(d.store.queue, q) && BooksOk(d.(store := d.store.(queue := q)), inbox + [i], extra)
  {
    hide BuffersOk, DeathsExplained, Ledger, Distinct, Onward;
    assert !Unsettled(d.store.queue, i);
    OneMoreWaits(d.messages, inbox, i);
    OneChangeKeeps(d, extra, i, Deliver(d.store.queue, i)[i]);
  }

  lemma BufferingKeeps(d: Desk, inbox: seq<nat>, extra: multiset<Row>, row: Row)
    requires BooksOk(d, inbox, extra) && inbox != [] && inbox[0] < |d.store.queue| && d.store.queue[inbox[0]].body == Entry(row)
    ensures BooksOk(d.(data := d.data + [row], messages := d.messages + [inbox[0]]), inbox[1..], extra)
  {
    FirstIsApart(d.messages, inbox);
    assert Unsettled(d.store.queue, inbox[0]);
    DistinctParts(d.messages + [inbox[0]], inbox[1..]);
    hide AckedRows, Distinct;
  }

  lemma MoreRows(d: Desk, inbox: seq<nat>, extra: multiset<Row>, rows: seq<Row>)
    requires BooksOk(d, inbox, extra)
    ensures BooksOk(d.(store := d.store.(table := d.store.table + rows)), inbox, extra + multiset(rows))
  {
    hide AckedRows;
  }

  lemma {:induction false} ReturnAllInParts(q: Queue<Body>, a: seq<nat>, b: seq<nat>)
    ensures ReturnAll(q, a + b) == ReturnAll(ReturnAll(q, a), b)
  {
    if b == [] {
      assert a + b == a;
    } else {
      assert (a + b)[..|a + b| - 1] == a + b[..|b| - 1];
      ReturnAllInParts(q, a, b[..|b| - 1]);
    }
  }

  /** A commit is paid for exactly when nothing is left of the batch. */
  lemma RestIsMissing(data: seq<Row>, k: nat, extra: multiset<Row>)
    requires k <= |data|
    ensures extra <= extra + multiset(data[k..]) && (extra + multiset(data[k..]) == extra <==> k == |data|)
  {
    assert |multiset(data[k..])| == |data| - k;
    assert |extra + multiset(data[k..])| == |extra| + |data| - k;
  }

  lemma BuffersAreOk(d: Desk, inbox: seq<nat>, extra: multiset<Row>)
    requires BooksOk(d, inbox, extra)
    ensures BuffersOk(d)
  {
  }

  lemma NextIsNotBuffered(d: Desk, inbox: seq<nat>, extra: multiset<Row>)
    requires BooksOk(d, inbox, extra) && inbox != []
    ensures BuffersOk(d) && inbox[0] !in d.messages
  {
    FirstIsApart(d.messages, inbox);
  }

  lemma HandingIs(d: Desk, i: nat)
    requires Waiting(d.store.queue, i)
    ensures BatchedStep(d, Hand(i)) == d.(store := d.store.(queue := Deliver(d.store.queue, i)))
  {
  }

  lemma ArrivalIs(d: Desk, body: Body)
    ensures BatchedStep(d, Arrive(body)) == d.(store := d.store.(queue := Publish(d.store.queue, body)))
  {
  }

  lemma HandlingIs(s: Store, i: nat)
    ensures UnbatchedStep(s, Handle(i)) == StoreOne(s, i)
  {
  }

  /** What a batch of five has become: its messages acknowledged, or given back. */
  ghost predicate Settles(q: Queue<Body>, q': Queue<Body>, ms: seq<nat>, fate: Fate) {
    && |q'| == |q|
    && forall i: nat | i < |q| ::
         q'[i] == if i !in ms then q[i]
                  else if fate == Committed then q[i].(place := Acked)
                  else q[i].(returned := q[i].returned + 1, place := if q[i].returned >= 3 then Dead else Ready)
  }

  lemma FlushSettles(d: Desk, fate: Fate)
    requires BuffersOk(d)
    ensures Settles(d.store.queue, if fate == Committed then AckAll(d.store.queue, d.messages) else ReturnAll(d.store.queue, d.messages), d.messages, fate)
  {
    AckAllMeans(d.store.queue, d.messages);
    ReturnAllMeans(d.store.queue, d.messages);
    hide AckAll, ReturnAll, Distinct;
    forall i: nat | i < |d.store.queue| && i in d.messages ensures Unsettled(d.store.queue, i) { }
  }

  /** One message handled: a row is buffered, and the fifth is stored with the four before it; a
      malformed message is dead; one that ends the loop is left alone. */
  ghost predicate Handled(d: Desk, d': Desk, m: nat, fate: Fate) {
    && m < |d.store.queue|
    && match d.store.queue[m].body
       case Entry(row) =>
         if |d.data| < 4 then d' == d.(data := d.data + [row], messages := d.messages + [m])
         else
           && d'.data == [] && d'.messages == []
           && d'.store.table == (if fate == Refused then d.store.table else d.store.table + d.data + [row])
           && Settles(d.store.queue, d'.store.queue, d.messages + [m], fate)
       case Malformed => d' == d.(store := d.store.(queue := d.store.queue[m := d.store.queue[m].(place := Dead)]))
       case Poison => d' == d
  }

  /** Five rows a batch, but for the last. */
  predicate Fives(fs: seq<Flushed>) {
    (forall i :: 0 <= i < |fs| ==> 1 <= fs[i].size <= 5) && forall i :: 0 <= i < |fs| - 1 ==> fs[i].size == 5
  }

  predicate AllFives(fs: seq<Flushed>) { forall i :: 0 <= i < |fs| ==> fs[i].size == 5 }

  lemma MoreFives(a: seq<Flushed>, b: seq<Flushed>)
    requires AllFives(a) && Fives(b)
    ensures Fives(a + b) && (AllFives(b) ==> AllFives(a + b))
  {
  }

  lemma {:induction false} SizeOfDistinct(ms: seq<nat>, held: set<nat>)
    requires Distinct(ms) && forall i :: i in held <==> i in ms
    ensures |held| == |ms|
  {
    if ms == [] {
      assert held == {};
    } else {
      var rest, last := ms[..|ms| - 1], ms[|ms| - 1];
      assert ms == rest + [last];
      SizeOfDistinct(rest, held - {last});
    }
  }

  lemma NothingToFlush(d: Desk)
    requires d.messages == [] && d.data == []
    ensures Flush(d).store == d.store
  {
  }

  class Worker {
    var queue: Queue<Body>
    var table: seq<Row>
    // Delivered, but not yet given to the loop by the iterator.
    var inbox: seq<nat>
    var batchData: seq<Row>
    var batchMessages: seq<nat>
    // Rows whose message was not acknowledged.
    ghost var extra: multiset<Row>

    function Now(): Desk
      reads this
    {
      Desk(Store(queue, table), batchData, batchMessages)
    }

    ghost predicate Books()
      reads this
    {
      BooksOk(Now(), inbox, extra)
    }

    /** Between two iterations there is room: the broker can always deliver another message
        when the inbox is empty. */
    ghost predicate Valid()
      reads this
    {
      Books() && |batchData| < BATCH && |batchMessages| + |inbox| <= PREFETCH
    }

    constructor ()
      ensures Valid() && queue == [] && table == [] && extra == multiset{}
    {
      queue, table, inbox, batchData, batchMessages, extra := [], [], [], [], [], multiset{};
    }

    /** process_batch: commit, then acknowledge one by one; on an exception give all back.  A
        `mortal` worker may die after any of them. */
    method ProcessBatch(fate: Fate, mortal: bool) returns (alive: bool, settled: nat)
      requires BuffersOk(Now())
      modifies `queue, `table
      ensures settled <= |batchMessages| && (alive <==> settled == |batchMessages|) && (alive || mortal)
      ensures queue == if fate.Committed? then AckAll(old(queue), batchMessages[..settled]) else ReturnAll(old(queue), batchMessages[..settled])
      ensures table == if fate.Refused? then old(table) else old(table) + batchData
    {
      settled := 0;
      if !fate.Refused? {
        table := table + batchData;
      }
      while settled < |batchMessages|
        invariant table == if fate.Refused? then old(table) else old(table) + batchData
        invariant settled <= |batchMessages|
        invariant queue == if fate.Committed? then AckAll(old(queue), batchMessages[..settled]) else ReturnAll(old(queue), batchMessages[..settled])
      {
        if mortal {
          if * { return false, settled; }
        }
        assert batchMessages[..settled + 1][..settled] == batchMessages[..settled];
        if fate.Committed? {
          queue := AckNow(queue, batchMessages[settled]);
        } else {
          queue := ReturnNow(queue, batchMessages[settled]);
        }
        settled := settled + 1;
      }
      alive := true;
    }

    /** The connection is gone: the broker takes back what this worker had not settled. */
    method GiveUp()
      requires Books()
      modifies this
      ensures Books() && batchData == [] && batchMessages == [] && inbox == []
      ensures Onward(old(queue), queue) && table == old(table) && extra == old(extra)
      ensures queue == ReturnAll(old(queue), old(batchMessages) + old(inbox))
    {
      GivingBack(Now(), inbox, extra, batchMessages + inbox, []);
      queue := ReturnAll(queue, batchMessages + inbox);
      batchData, batchMessages, inbox := [], [], [];
    }

    /** The buffers are cleared after a commit, or die with the worker. */
    method ClearCommitted(ghost before: Desk, settled: nat)
      requires BooksOk(before, inbox, extra) && batchData == before.data && batchMessages == before.messages
      requires settled <= |batchMessages| && queue == AckAll(before.store.queue, batchMessages[..settled])
      requires table == before.store.table + batchData
      modifies this
      ensures Books() && batchData == [] && batchMessages == [] && Onward(before.store.queue, queue) && table == old(table)
      ensures inbox == if settled == |before.messages| then old(inbox) else []
      ensures old(extra) <= extra && (extra == old(extra) <==> settled == |before.messages|)
      ensures settled == |before.messages| ==> Now() == Flush(before)
    {
      hide BuffersOk, Ledger, AckAll, ReturnAll, DeathsExplained;
      AckingPart(before, inbox, extra, settled);
      RestIsMissing(batchData, settled, extra);
      extra := extra + multiset(batchData[settled..]);
      var alive := settled == |batchMessages|;
      batchData, batchMessages := batchData[settled..], batchMessages[settled..];
      if alive {
        assert before.messages[..settled] == before.messages;
      } else {
        GiveUp();
      }
    }

    /** The same after an exception: all messages have gone back, the rest by the broker. */
    method ClearRaised(ghost before: Desk, settled: nat, committed: bool)
      requires BooksOk(before, inbox, extra) && batchData == before.data && batchMessages == before.messages && batchData != []
      requires settled <= |batchMessages| && queue == ReturnAll(before.store.queue, batchMessages[..settled])
      requires table == if committed then before.store.table + batchData else before.store.table
      modifies this
      ensures Books() && batchData == [] && batchMessages == [] && Onward(before.store.queue, queue) && table == old(table)
      ensures inbox == if settled == |before.messages| then old(inbox) else []
      ensures old(extra) <= extra && (extra == old(extra) <==> !committed)
      ensures settled == |before.messages| ==> queue == ReturnAll(before.store.queue, before.messages)
    {
      hide BuffersOk, Ledger, AckAll, ReturnAll, DeathsExplained;
      ReturnAllInParts(before.store.queue, batchMessages[..settled], batchMessages[settled..]);
      assert batchMessages[..settled] + batchMessages[settled..] == batchMessages;
      queue := ReturnAll(queue, batchMessages[settled..]);
      GivingBack(before, inbox, extra, batchMessages, inbox);
      if committed {
        MoreRows(Desk(before.store.(queue := queue), [], []), inbox, extra, batchData);
        RestIsMissing(batchData, 0, extra);
        assert batchData[0..] == batchData;
        extra := extra + multiset(batchData);
      }
      var alive := settled == |batchMessages|;
      batchData, batchMessages := [], [];
      if !alive { GiveUp(); }
    }

    /** process_batch and the clearing of the buffers, for a batch that is not empty. */
    method FlushBatch(fate: Fate, mortal: bool) returns (alive: bool, ghost flushed: Flushed)
      requires Books() && batchData != []
      modifies this
      ensures Books() && batchData == [] && batchMessages == []
      ensures (alive || mortal) && inbox == if alive then old(inbox) else []
      ensures Onward(old(queue), queue)
      ensures flushed.fate == fate && flushed.size == |old(batchMessages)| && (alive <==> flushed.settled == flushed.size)
      ensures old(extra) <= extra && (extra == old(extra) <==> Clean(flushed))
      ensures alive && fate.Committed? ==> Now() == Flush(old(Now()))
      ensures alive ==> Settles(old(queue), queue, old(batchMessages), fate)
      ensures table == if fate.Refused? then old(table) else old(table) + old(batchData)
    {
      hide BooksOk, BuffersOk, AckAll, ReturnAll;
      ghost var before := Now();
      var settled;
      BuffersAreOk(Now(), inbox, extra);
      alive, settled := ProcessBatch(fate, mortal);
      flushed := Flushed(fate, settled, |batchMessages|);
      FlushSettles(before, fate);
      if fate.Committed? {
        ClearCommitted(before, settled);
      } else {
        ClearRaised(before, settled, fate.CommittedButRaised?);
      }
    }

    /** Messages are published, and the broker delivers while fewer than five are not settled. */
    method Arrivals(ghost before: Store, ghost log: seq<Event>, ghost follows: bool) returns (ghost log': seq<Event>)
      requires Valid() && (follows ==> Flush(Now()).store == Unbatched(before, log))
      modifies `queue, `inbox
      ensures Valid() && Onward(old(queue), queue) && old(inbox) <= inbox
      ensures follows ==> Flush(Now()).store == Unbatched(before, log')
    {
      hide BooksOk, Flush, BuffersOk, UnbatchedStep;
      log' := log;
      var k: nat := *;
      while k > 0
        invariant Valid() && Onward(old(queue), queue) && old(inbox) <= inbox
        invariant follows ==> Flush(Now()).store == Unbatched(before, log')
      {
        var i: nat, body: Body := *, *;
        BuffersAreOk(Now(), inbox, extra);
        if Waiting(queue, i) && |batchMessages| + |inbox| < PREFETCH {
          DeliveringKeeps(Now(), inbox, extra, i);
          HandingRefines(Now(), i);
          HandingIs(Now(), i);
          UnbatchedOneMore(before, log', Hand(i));
          log' := log' + [Hand(i)];
          queue := Deliver(queue, i);
          inbox := inbox + [i];
        } else {
          PublishingKeeps(Now(), inbox, extra, body);
          ArrivalRefines(Now(), body);
          ArrivalIs(Now(), body);
          UnbatchedOneMore(before, log', Arrive(body));
          log' := log' + [Arrive(body)];
          queue := Publish(queue, body);
        }
        k := k - 1;
      }
    }

    /** Between two iterations there is always room for another message: when the iterator has
        nothing to give, fewer deliveries are unsettled than the prefetch window holds. */
    lemma NeverStalls(held: set<nat>)
      requires Valid() && inbox == [] && forall i: nat :: i in held <==> i < |queue| && queue[i].place.Held?
      ensures |held| == |batchMessages| < 5 && |held| < PREFETCH
    {
      DistinctParts(batchMessages, inbox);
      forall i: nat ensures i in held <==> i in batchMessages { assert i in held <==> Unsettled(queue, i); }
      SizeOfDistinct(batchMessages, held);
    }

    /** One iteration of the loop, for the message the iterator yields next. */
    method HandleNext(fate: Fate, mortal: bool) returns (going: Going, ghost flushes: seq<Flushed>)
      requires Valid() && inbox != []
      modifies this
      ensures Books() && Onward(old(queue), queue)
      ensures old(extra) <= extra && (extra == old(extra) <==> AllClean(flushes))
      ensures going.Continues? ==> Valid() && inbox == old(inbox[1..]) && |batchData| < 5
      ensures going.Continues? ==> Handled(old(Now()), Now(), old(inbox[0]), fate)
      ensures AllFives(flushes) && (flushes == [] || (|flushes| == 1 && flushes[0].fate == fate && |old(batchData)| == 4))
      ensures !going.Dies? && AllCommitted(flushes) ==> Now() == HandleOne(old(Now()), old(inbox[0]))
      ensures going.Dies? ==> mortal && batchData == [] && inbox == []
      ensures going.Leaves? <==> old(inbox[0] < |queue| && queue[inbox[0]].body.Poison?)
      ensures going.Leaves? ==> Now() == old(Now()) && inbox == old(inbox)
    {
      var m := inbox[0];
      assert Unsettled(queue, m);
      hide BuffersOk, Ledger, Distinct, DeathsExplained, Flush;
      going, flushes := Continues, [];
      match queue[m].body
      case Malformed =>
        DiscardingKeeps(Now(), inbox, extra);
        queue := DiscardNow(queue, m);
        inbox := inbox[1..];
      case Poison =>
        going := Leaves;
      case Entry(row) =>
        going, flushes := BufferEntry(row, fate, mortal);
    }

    /** A well-formed message: its row is buffered, and the fifth flushes the buffer. */
    method BufferEntry(row: Row, fate: Fate, mortal: bool) returns (going: Going, ghost flushes: seq<Flushed>)
      requires Valid() && inbox != [] && inbox[0] < |queue| && Unsettled(queue, inbox[0]) && queue[inbox[0]].body == Entry(row)
      modifies this
      ensures Books() && Onward(old(queue), queue) && !going.Leaves?
      ensures old(extra) <= extra && (extra == old(extra) <==> AllClean(flushes))
      ensures going.Continues? ==> Valid() && inbox == old(inbox[1..]) && Handled(old(Now()), Now(), old(inbox[0]), fate)
      ensures AllFives(flushes) && (flushes == [] || (|flushes| == 1 && flushes[0].fate == fate && |old(batchData)| == 4))
      ensures !going.Dies? && AllCommitted(flushes) ==> Now() == HandleOne(old(Now()), old(inbox[0]))
      ensures going.Dies? ==> mortal && batchData == [] && inbox == []
    {
      hide BuffersOk, Ledger, Distinct, DeathsExplained, Flush, Settles;
      going, flushes := Continues, [];
      BuffersAreOk(Now(), inbox, extra);
      BuffersAligned(Now());
      BufferingKeeps(Now(), inbox, extra, row);
      batchData, batchMessages, inbox := batchData + [row], batchMessages + [inbox[0]], inbox[1..];
      if |batchData| >= BATCH {
        var alive;
        ghost var flushed;
        alive, flushed := FlushBatch(fate, mortal);
        flushes := [flushed];
        OneFlush(flushed);
        if !alive { going := Dies; }
      }
    }

    /** The `async for`, until the iterator stops, a message cannot be read, or the worker dies. */
    method Iterate(ghost before: Store, mortal: bool) returns (going: Going, ghost flushes: seq<Flushed>, ghost log: seq<Event>)
      requires Valid() && before == Flush(Now()).store
      modifies this
      ensures Books() && Onward(old(queue), queue) && (going.Dies? ==> mortal && batchData == [] && inbox == [])
      ensures old(extra) <= extra && (extra == old(extra) <==> AllClean(flushes))
      ensures AllFives(flushes) && (!going.Dies? ==> |batchData| < 5)
      ensures !going.Dies? && AllCommitted(flushes) ==> Flush(Now()).store == Unbatched(before, log)
    {
      hide BuffersOk, Ledger, Distinct, DeathsExplained, Flush, HandleOne, UnbatchedStep;
      flushes, log, going := [], [], Continues;
      var k: nat := *;
      while going.Continues? && k > 0
        invariant Books() && (!going.Dies? ==> Valid()) && (going.Dies? ==> mortal && batchData == [] && inbox == [])
        invariant Onward(old(queue), queue) && old(extra) <= extra && (extra == old(extra) <==> AllClean(flushes))
        invariant AllFives(flushes)
        invariant !going.Dies? && AllCommitted(flushes) ==> Flush(Now()).store == Unbatched(before, log)
      {
        log := Arrivals(before, log, AllCommitted(flushes));
        if inbox != [] {
          ghost var was, m, had, more := Now(), inbox[0], extra, [];
          NextIsNotBuffered(was, inbox, extra);
          HandleRefines(was, m);
          UnbatchedOneMore(before, log, Handle(m));
          HandlingIs(Flush(was).store, m);
          var fate: Fate := *;
          going, more := HandleNext(fate, mortal);
          MoreFlushes(flushes, more);
          MoreFives(flushes, more);
          Sandwich(old(extra), had, extra);
          log, flushes := log + [Handle(m)], flushes + more;
        }
        k := k - 1;
      }
    }

    /** audit_logger: the loop, and the flush when it ends.  However it ends, nothing stays
        unsettled, and the table has gained exactly the rows of the messages acknowledged
        meanwhile if and only if no flush separated a commit from its acknowledgements.  If the
        worker lives, as one that is not `mortal` does, and every commit succeeds, the table and the queue are those of the logger
        without batches, but for the messages given back at the end. */
    method AuditLoop(mortal: bool) returns (died: bool, ghost flushes: seq<Flushed>, ghost log: seq<Event>, ghost rest: seq<nat>)
      requires Valid()
      modifies this
      ensures Books() && batchData == [] && batchMessages == [] && inbox == []
      ensures Onward(old(queue), queue) && forall i: nat :: !Unsettled(queue, i)
      ensures old(extra) <= extra && (extra == old(extra) <==> AllClean(flushes))
      ensures Fives(flushes) && (died ==> mortal)
      ensures !died && AllCommitted(flushes) ==>
                var reference := Unbatched(old(Flush(Now()).store), log);
                table == reference.table && queue == ReturnAll(reference.queue, rest)
    {
      hide BuffersOk, Ledger, Distinct, DeathsExplained, Flush, HandleOne, UnbatchedStep, AllClean, AllCommitted, ReturnAll;
      var going;
      going, flushes, log := Iterate(Flush(Now()).store, mortal);
      died := going.Dies?;
      var dies: bool := *;
      if mortal && dies {
        died := true;
      } else if !died && batchData != [] {
        ghost var flushed, had;
        var fate: Fate, alive := *, true;
        had := extra;
        FlushTwice(Now());
        BuffersAreOk(Now(), inbox, extra);
        BuffersAligned(Now());
        alive, flushed := FlushBatch(fate, mortal);
        MoreFlushes(flushes, [flushed]);
        MoreFives(flushes, [flushed]);
        OneFlush(flushed);
        Sandwich(old(extra), had, extra);
        flushes, died := flushes + [flushed], !alive;
      }
      BuffersAreOk(Now(), inbox, extra);
      BuffersAligned(Now());
      if batchData == [] { NothingToFlush(Now()); }
      rest := batchMessages + inbox;
      GiveUp();
    }
  }
}
