/** The RabbitMQ quorum queue as every worker of the system declares it
    (`get_configured_queue`): a message is delivered, then acknowledged, rejected, or
    returned.  Crashes and `reject(requeue=True)` both count as returns, and the
    return after `DELIVERY_LIMIT` of them dead-letters the message instead.

    Messages are never removed from the sequence, only moved between places, so an
    index names a message for ever. */
module Broker {

  // The queue argument "x-delivery-limit", and MAX_DELIVERY_COUNT in both workers.
  const DELIVERY_LIMIT: nat := 3

  datatype Place = Ready | Held | Acked | Dead

  /** `returned` is the header x-delivery-count of the next delivery; `deliveries`
      counts the deliveries made so far and serves as the delivery tag. */
  datatype Message<+T> = Message(body: T, returned: nat, deliveries: nat, place: Place)

  type Queue<+T> = seq<Message<T>>

  /** One delivery of one message, and so one run of a handler. */
  datatype Delivery = Delivery(msg: nat, tag: nat)

  predicate Waiting<T>(q: Queue<T>, i: nat) {
    i < |q| && q[i].place.Ready?
  }

  /** The delivery `tag` of message `i` is the one its consumer still holds. */
  predicate Current<T>(q: Queue<T>, i: nat, tag: nat) {
    i < |q| && q[i].place.Held? && q[i].deliveries == tag
  }

  function Publish<T>(q: Queue<T>, body: T): Queue<T> {
    q + [Message(body, 0, 0, Ready)]
  }

  function Deliver<T>(q: Queue<T>, i: nat): Queue<T>
    requires Waiting(q, i)
  {
    q[i := q[i].(place := Held, deliveries := q[i].deliveries + 1)]
  }

  /** Settling with a stale tag changes nothing: the broker has already taken the
      message back from that consumer. */
  function Ack<T>(q: Queue<T>, i: nat, tag: nat): Queue<T> {
    if Current(q, i, tag) then q[i := q[i].(place := Acked)] else q
  }

  function Discard<T>(q: Queue<T>, i: nat, tag: nat): Queue<T> {
    if Current(q, i, tag) then q[i := q[i].(place := Dead)] else q
  }

  function Return<T>(q: Queue<T>, i: nat, tag: nat): Queue<T> {
    if Current(q, i, tag) then
      q[i := q[i].(returned := q[i].returned + 1,
                   place := if q[i].returned + 1 > DELIVERY_LIMIT then Dead else Ready)]
    else q
  }

  /** A delivery that still held its message has moved it there. */
  ghost predicate Leaves<T>(q: Queue<T>, q': Queue<T>, d: Delivery, place: Place) {
    Current(q, d.msg, d.tag) ==> d.msg < |q'| && q'[d.msg] == q[d.msg].(place := place)
  }

  /** It has come back, for the fourth time at most. */
  ghost predicate GoesBack<T>(q: Queue<T>, q': Queue<T>, d: Delivery) {
    Current(q, d.msg, d.tag) ==>
      d.msg < |q'| && q'[d.msg] == q[d.msg].(returned := q[d.msg].returned + 1, place := if q[d.msg].returned >= 3 then Dead else Ready)
  }

  predicate SoundMessage<T>(m: Message<T>) {
    match m.place
    case Ready => m.deliveries == m.returned <= DELIVERY_LIMIT
    case Held => m.deliveries == m.returned + 1 <= DELIVERY_LIMIT + 1
    case Acked => m.deliveries == m.returned + 1 <= DELIVERY_LIMIT + 1
    case Dead => 1 <= m.deliveries <= DELIVERY_LIMIT + 1
  }

  predicate Sound<T>(q: Queue<T>) {
    forall i :: 0 <= i < |q| ==> SoundMessage(q[i])
  }

  /** What a queue operation may do to the queue: bodies stay, tags only grow. */
  predicate Extends<T(==)>(q: Queue<T>, q': Queue<T>) {
    && |q| <= |q'|
    && forall i :: 0 <= i < |q| ==> q'[i].body == q[i].body && q[i].deliveries <= q'[i].deliveries
  }

  /** Every operation keeps the queue sound, so no message is delivered more than
      DELIVERY_LIMIT + 1 times and the last return dead-letters it. */
  lemma SettlingIsSound<T>(q: Queue<T>, i: nat, tag: nat, q': Queue<T>)
    requires Sound(q)
    requires q' == Ack(q, i, tag) || q' == Discard(q, i, tag) || q' == Return(q, i, tag)
    ensures Sound(q') && Extends(q, q') && |q'| == |q|
  {
    if Current(q, i, tag) {
      assert SoundMessage(q[i]);
    }
  }

  lemma DeliveringIsSound<T>(q: Queue<T>, i: nat)
    requires Sound(q) && Waiting(q, i)
    ensures Sound(Deliver(q, i)) && Extends(q, Deliver(q, i))
    ensures Current(Deliver(q, i), i, q[i].deliveries + 1) && q[i].deliveries + 1 <= DELIVERY_LIMIT + 1
  {
    assert SoundMessage(q[i]);
  }
}
