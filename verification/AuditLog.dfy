/** The audit logger (logger_service/worker.py): messages are buffered, committed to the
    table five at a time, and only then acknowledged.  Malformed messages are dead-lettered;
    one whose job id is no UUID or that has an unknown field ends the loop. */
module AuditLog {
  import opened Broker

  const BATCH: nat := 5
  const PREFETCH: nat := 5

  datatype Row = Row(job: nat, entry: string)
  datatype Body = Entry(row: Row) | Malformed | Poison

  /** The queue and the audit table. */
  datatype Store = Store(queue: Queue<Body>, table: seq<Row>)

  /** With the two buffers of the loop. */
  datatype Desk = Desk(store: Store, data: seq<Row>, messages: seq<nat>)

  predicate Unsettled(q: Queue<Body>, i: nat) { i < |q| && q[i].place.Held? }

  /** Acknowledging, rejecting and returning what is held now. */
  function AckNow(q: Queue<Body>, i: nat): Queue<Body> { if i < |q| then Ack(q, i, q[i].deliveries) else q }
  function DiscardNow(q: Queue<Body>, i: nat): Queue<Body> { if i < |q| then Discard(q, i, q[i].deliveries) else q }
  function ReturnNow(q: Queue<Body>, i: nat): Queue<Body> { if i < |q| then Return(q, i, q[i].deliveries) else q }

  function AckAll(q: Queue<Body>, ms: seq<nat>): Queue<Body> {
    if ms == [] then q else AckNow(AckAll(q, ms[..|ms| - 1]), ms[|ms| - 1])
  }

  function ReturnAll(q: Queue<Body>, ms: seq<nat>): Queue<Body> {
    if ms == [] then q else ReturnNow(ReturnAll(q, ms[..|ms| - 1]), ms[|ms| - 1])
  }

  /** The logger without batches: each row is committed and its message acknowledged at once. */
  function StoreOne(s: Store, i: nat): Store {
    if !Unsettled(s.queue, i) then s
    else
      match s.queue[i].body
      case Entry(row) => Store(AckNow(s.queue, i), s.table + [row])
      case Malformed => s.(queue := DiscardNow(s.queue, i))
      case Poison => s
  }

  /** What happens to the queue and the loop: a message is published, the broker delivers one,
      the loop handles one. */
  datatype Event = Arrive(body: Body) | Hand(i: nat) | Handle(i: nat)

  function UnbatchedStep(s: Store, e: Event): Store {
    match e
    case Arrive(body) => s.(queue := Publish(s.queue, body))
    case Hand(i) => if Waiting(s.queue, i) then s.(queue := Deliver(s.queue, i)) else s
    case Handle(i) => StoreOne(s, i)
  }

  function Unbatched(s: Store, log: seq<Event>): Store {
    if log == [] then s else UnbatchedStep(Unbatched(s, log[..|log| - 1]), log[|log| - 1])
  }

  /** A batch that is committed. */
  function Flush(d: Desk): Desk {
    Desk(Store(AckAll(d.store.queue, d.messages), d.store.table + d.data), [], [])
  }

  /** One iteration of the loop, if commits succeed. */
  function HandleOne(d: Desk, i: nat): Desk {
    if !Unsettled(d.store.queue, i) then d
    else
      match d.store.queue[i].body
      case Entry(row) =>
        var d' := d.(data := d.data + [row], messages := d.messages + [i]);
        if |d'.data| >= BATCH then Flush(d') else d'
      case Malformed => d.(store := d.store.(queue := DiscardNow(d.store.queue, i)))
      case Poison => d
  }

  function BatchedStep(d: Desk, e: Event): Desk {
    match e
    case Handle(i) => HandleOne(d, i)
    case _ => d.(store := UnbatchedStep(d.store, e))
  }

  function Batched(d: Desk, log: seq<Event>): Desk {
    if log == [] then d else BatchedStep(Batched(d, log[..|log| - 1]), log[|log| - 1])
  }

  predicate Distinct(ms: seq<nat>) {
    forall a, b :: 0 <= a < b < |ms| ==> ms[a] != ms[b]
  }

  /** The buffers are aligned, and hold messages that are not settled. */
  predicate BuffersOk(d: Desk) {
    && |d.data| == |d.messages| && Distinct(d.messages)
    && forall k :: 0 <= k < |d.messages| ==>
         Unsettled(d.store.queue, d.messages[k]) && d.store.queue[d.messages[k]].body == Entry(d.data[k])
  }

  /** Acknowledging touches the acknowledged messages only. */
  lemma {:induction false} AckAllMeans(q: Queue<Body>, ms: seq<nat>)
    ensures |AckAll(q, ms)| == |q|
    ensures forall i :: 0 <= i < |q| ==>
              AckAll(q, ms)[i] == if i in ms && q[i].place.Held? then q[i].(place := Acked) else q[i]
  {
    if ms != [] {
      AckAllMeans(q, ms[..|ms| - 1]);
      assert ms == ms[..|ms| - 1] + [ms[|ms| - 1]];
    }
  }

  lemma AckOneMore(q: Queue<Body>, ms: seq<nat>, i: nat)
    ensures AckAll(q, ms + [i]) == AckNow(AckAll(q, ms), i)
  {
    assert (ms + [i])[..|ms|] == ms;
  }

  lemma AckAndDiscard(q: Queue<Body>, ms: seq<nat>, i: nat)
    requires i < |q| && i !in ms
    ensures AckAll(DiscardNow(q, i), ms) == DiscardNow(AckAll(q, ms), i)
  {
    AckAllMeans(q, ms);
    AckAllMeans(DiscardNow(q, i), ms);
  }

  /** One iteration does what the logger without batches does, once the buffer is flushed. */
  lemma HandleRefines(d: Desk, i: nat)
    requires BuffersOk(d) && i !in d.messages
    ensures Flush(HandleOne(d, i)).store == StoreOne(Flush(d).store, i)
  {
    AckAllMeans(d.store.queue, d.messages);
    hide AckAll;
    if Unsettled(d.store.queue, i) {
      match d.store.queue[i].body {
        case Entry(row) =>
          AckOneMore(d.store.queue, d.messages, i);
          FlushTwice(d.(data := d.data + [row], messages := d.messages + [i]));
        case Malformed => AckAndDiscard(d.store.queue, d.messages, i);
        case Poison =>
      }
    }
  }

  lemma FlushTwice(d: Desk)
    ensures Flush(Flush(d)) == Flush(d)
  {
  }

  lemma BufferOne(d: Desk, i: nat, row: Row)
    requires BuffersOk(d) && i !in d.messages && Unsettled(d.store.queue, i) && d.store.queue[i].body == Entry(row)
    ensures BuffersOk(d.(data := d.data + [row], messages := d.messages + [i]))
  {
  }

  lemma DiscardOne(d: Desk, i: nat)
    requires BuffersOk(d) && i !in d.messages && i < |d.store.queue|
    ensures BuffersOk(d.(store := d.store.(queue := DiscardNow(d.store.queue, i))))
  {
    hide Distinct;
  }

  lemma HandleKeeps(d: Desk, i: nat)
    requires BuffersOk(d) && |d.data| < BATCH && i !in d.messages
    ensures BuffersOk(HandleOne(d, i)) && |HandleOne(d, i).data| < BATCH
    ensures forall m | m in HandleOne(d, i).messages :: m in d.messages || m == i
  {
    hide BuffersOk, AckAll, DiscardNow;
    if Unsettled(d.store.queue, i) {
      var e := HandleOne(d, i);
      match d.store.queue[i].body {
        case Entry(row) =>
          BufferOne(d, i, row);
          FlushedIsEmpty(d.(data := d.data + [row], messages := d.messages + [i]));
        case Malformed => DiscardOne(d, i);
        case Poison =>
      }
    }
  }

  lemma FlushedIsEmpty(d: Desk)
    ensures BuffersOk(Flush(d)) && Flush(d).data == [] && Flush(d).messages == []
  {
  }

  lemma ArrivalRefines(d: Desk, body: Body)
    requires BuffersOk(d)
    ensures Flush(BatchedStep(d, Arrive(body))).store == UnbatchedStep(Flush(d).store, Arrive(body))
    ensures BuffersOk(BatchedStep(d, Arrive(body)))
  {
    AckAllMeans(d.store.queue, d.messages);
    AckAllMeans(Publish(d.store.queue, body), d.messages);
    hide AckAll, Distinct;
  }

  lemma HandingRefines(d: Desk, i: nat)
    requires BuffersOk(d)
    ensures Flush(BatchedStep(d, Hand(i))).store == UnbatchedStep(Flush(d).store, Hand(i))
    ensures BuffersOk(BatchedStep(d, Hand(i)))
  {
    AckAllMeans(d.store.queue, d.messages);
    if Waiting(d.store.queue, i) {
      AckAllMeans(Deliver(d.store.queue, i), d.messages);
      assert i !in d.messages;
    }
    hide AckAll, Distinct;
  }

  /** One event, up to a flush. */
  lemma StepRefines(d: Desk, e: Event)
    requires BuffersOk(d) && |d.data| < BATCH && (e.Handle? ==> e.i !in d.messages)
    ensures Flush(BatchedStep(d, e)).store == UnbatchedStep(Flush(d).store, e)
    ensures BuffersOk(BatchedStep(d, e)) && |BatchedStep(d, e).data| < BATCH
    ensures forall m | m in BatchedStep(d, e).messages :: m in d.messages || e == Handle(m)
  {
    hide BuffersOk, Flush, HandleOne, StoreOne;
    match e
    case Arrive(body) => ArrivalRefines(d, body);
    case Hand(i) => HandingRefines(d, i);
    case Handle(i) =>
      HandleRefines(d, i);
      HandleKeeps(d, i);
  }

  /** The loop is given a message once: one that it buffers does not come again before the
      flush. */
  predicate HandlesOnce(d: Desk, log: seq<Event>) {
    && (forall a, b :: 0 <= a < b < |log| && log[a].Handle? ==> log[a] != log[b])
    && (forall a :: 0 <= a < |log| && log[a].Handle? ==> log[a].i !in d.messages)
  }

  lemma {:induction false} BatchedKeeps(d: Desk, log: seq<Event>)
    requires BuffersOk(d) && |d.data| < BATCH && HandlesOnce(d, log)
    ensures var e := Batched(d, log);
            BuffersOk(e) && |e.data| < BATCH && forall m | m in e.messages :: m in d.messages || Handle(m) in log
  {
    if log != [] {
      var rest, last := log[..|log| - 1], log[|log| - 1];
      BatchedKeeps(d, rest);
      assert last !in rest || !last.Handle?;
      assert forall e | e in rest :: e in log;
      hide BatchedStep, BuffersOk;
      StepRefines(Batched(d, rest), last);
    }
  }

  /** Over any schedule of publications, deliveries and iterations the batching logger leaves,
      once flushed, the same table in the same order and the same queue as the logger without
      batches. */
  lemma {:induction false} BatchingRefines(d: Desk, log: seq<Event>)
    requires BuffersOk(d) && |d.data| < BATCH && HandlesOnce(d, log)
    ensures Flush(Batched(d, log)).store == Unbatched(Flush(d).store, log)
  {
    if log != [] {
      var rest, last := log[..|log| - 1], log[|log| - 1];
      BatchingRefines(d, rest);
      BatchedKeeps(d, rest);
      assert last !in rest || !last.Handle?;
      hide BatchedStep, UnbatchedStep, Flush, BuffersOk;
      StepRefines(Batched(d, rest), last);
    }
  }

  lemma UnbatchedOneMore(s: Store, log: seq<Event>, e: Event)
    ensures Unbatched(s, log + [e]) == UnbatchedStep(Unbatched(s, log), e)
  {
    assert (log + [e])[..|log|] == log;
  }

  /***** Rows and acknowledgements *****/

  /** The rows of the first `n` messages that have been acknowledged. */
  function AckedRows(q: Queue<Body>, n: nat): multiset<Row>
    requires n <= |q|
  {
    if n == 0 then multiset{}
    else
      AckedRows(q, n - 1) + RowsOf(q[n - 1])
  }

  /** The table holds a row for every acknowledged message, and `extra` besides. */
  predicate Ledger(s: Store, extra: multiset<Row>) {
    multiset(s.table) == AckedRows(s.queue, |s.queue|) + extra
  }

  function RowsOf(m: Message<Body>): multiset<Row> {
    if m.place.Acked? && m.body.Entry? then multiset{m.body.row} else multiset{}
  }

  lemma {:induction false} AckedRowsGrow(q: Queue<Body>, q': Queue<Body>, i: nat, n: nat)
    requires n <= |q| && n <= |q'|
    requires forall k :: 0 <= k < n && k != i ==> RowsOf(q'[k]) == RowsOf(q[k])
    ensures i >= n ==> AckedRows(q', n) == AckedRows(q, n)
    ensures i < n ==> AckedRows(q', n) + RowsOf(q[i]) == AckedRows(q, n) + RowsOf(q'[i])
  {
    hide RowsOf;
    if n > 0 {
      AckedRowsGrow(q, q', i, n - 1);
      if i < n - 1 {
        AddToBoth(AckedRows(q', n - 1), RowsOf(q[i]), AckedRows(q, n - 1), RowsOf(q'[i]), RowsOf(q[n - 1]));
      } else if i == n - 1 {
        Reorder(AckedRows(q, n - 1), RowsOf(q'[i]), RowsOf(q[i]));
      }
    }
  }

  lemma AddToBoth(a: multiset<Row>, b: multiset<Row>, c: multiset<Row>, d: multiset<Row>, x: multiset<Row>)
    requires a + b == c + d
    ensures (a + x) + b == (c + x) + d
  {
    assert (a + x) + b == (a + b) + x;
    assert (c + x) + d == (c + d) + x;
  }

  lemma Reorder(a: multiset<Row>, b: multiset<Row>, c: multiset<Row>)
    ensures (a + b) + c == (a + c) + b
  {
  }

  lemma AckedRowsStay(q: Queue<Body>, q': Queue<Body>)
    requires |q| == |q'|
    requires forall i :: 0 <= i < |q| ==> RowsOf(q'[i]) == RowsOf(q[i])
    ensures AckedRows(q', |q'|) == AckedRows(q, |q|)
  {
    AckedRowsGrow(q, q', |q|, |q|);
  }

  lemma AckedRowsOfAck(q: Queue<Body>, i: nat, row: Row)
    requires Unsettled(q, i) && q[i].body == Entry(row)
    ensures |AckNow(q, i)| == |q| && AckedRows(AckNow(q, i), |q|) == AckedRows(q, |q|) + multiset{row}
  {
    AckedRowsGrow(q, AckNow(q, i), i, |q|);
    hide AckedRows;
    assert RowsOf(q[i]) == multiset{} && RowsOf(AckNow(q, i)[i]) == multiset{row};
  }

  /** Acknowledging the message `k` of a batch whose first `k` are acknowledged. */
  lemma AckNext(d: Desk, k: nat)
    requires BuffersOk(d) && k < |d.messages|
    ensures var q, q' := AckAll(d.store.queue, d.messages[..k]), AckAll(d.store.queue, d.messages[..k + 1]);
            && |q'| == |q| == |d.store.queue|
            && AckedRows(q', |q'|) == AckedRows(q, |q|) + multiset{d.data[k]}
  {
    AckAllMeans(d.store.queue, d.messages[..k]);
    AckOneMore(d.store.queue, d.messages[..k], d.messages[k]);
    hide AckAll, AckedRows, AckNow, RowsOf;
    assert d.messages[..k] + [d.messages[k]] == d.messages[..k + 1];
    assert d.messages[k] !in d.messages[..k];
    AckedRowsOfAck(AckAll(d.store.queue, d.messages[..k]), d.messages[k], d.data[k]);
  }

  /** Acknowledging part of a batch: its rows are paid for. */
  lemma {:induction false} AckedRowsOfBatch(d: Desk, k: nat)
    requires BuffersOk(d) && k <= |d.messages|
    ensures var q := AckAll(d.store.queue, d.messages[..k]);
            |q| == |d.store.queue| && AckedRows(q, |q|) == AckedRows(d.store.queue, |d.store.queue|) + multiset(d.data[..k])
  {
    hide AckedRows, BuffersOk;
    if k > 0 {
      BuffersAligned(d);
      AckedRowsOfBatch(d, k - 1);
      AckNext(d, k - 1);
      OneRowMore(d.data, k, AckedRows(d.store.queue, |d.store.queue|));
    } else {
      assert AckAll(d.store.queue, d.messages[..0]) == d.store.queue;
    }
  }

  lemma BuffersAligned(d: Desk)
    requires BuffersOk(d)
    ensures |d.data| == |d.messages|
  {
  }

  lemma OneRowMore(data: seq<Row>, k: nat, base: multiset<Row>)
    requires 0 < k <= |data|
    ensures base + multiset(data[..k - 1]) + multiset{data[k - 1]} == base + multiset(data[..k])
  {
    assert data[..k] == data[..k - 1] + [data[k - 1]];
  }

  /** Whatever failed or crashed, an acknowledged message has its row in the table. */
  lemma {:induction false} AckedIsStored(s: Store, extra: multiset<Row>, i: nat, n: nat)
    requires Ledger(s, extra) && i < n <= |s.queue|
    requires s.queue[i].place.Acked? && s.queue[i].body.Entry?
    ensures s.queue[i].body.row in AckedRows(s.queue, n) && s.queue[i].body.row in s.table
  {
    AckedRowsHave(s.queue, i, n);
    AckedRowsHave(s.queue, i, |s.queue|);
    hide AckedRows;
    assert s.queue[i].body.row in multiset(s.table);
  }

  lemma {:induction false} AckedRowsHave(q: Queue<Body>, i: nat, n: nat)
    requires i < n <= |q| && q[i].place.Acked? && q[i].body.Entry?
    ensures q[i].body.row in AckedRows(q, n)
  {
    if i < n - 1 { AckedRowsHave(q, i, n - 1); }
  }
}
