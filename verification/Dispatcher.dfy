/** The webhook dispatcher (dispatcher/orchestrator/processor.py) for one event.

    Two retry mechanisms are nested.  A failed POST is published again as a new message
    with a higher attempt; and any message comes back from the broker when its handler
    raises, dies or loses its connection.  Because the retry is published before the old
    message is acknowledged, a crash between the two makes two messages out of one. */
module Dispatcher {
  import opened Broker
  import opened Retry

  /** Answered: what became of the attempt, with its exception still to be handled. */
  datatype Pc = Started | Resolved | Answered(outcome: Attempted) | Closing

  datatype Handling = Handling(payload: Payload, pc: Pc)

  datatype State = State(queue: Queue<Payload>, handling: map<Delivery, Handling>,
                         posts: nat, delivered: nat, dead: seq<Payload>)

  /** The configuration lookup answers, raises a WebhookException, or raises another exception. */
  datatype Resolution = Configured | NotConfigured | LookupBroke

  datatype Event =
    | Take(d: Delivery) | Resolve(d: Delivery, resolution: Resolution) | Post(d: Delivery, reply: Reply)
    | Act(d: Delivery, now: int) | AckIt(d: Delivery) | Raise(d: Delivery) | Crash(d: Delivery) | Lose(d: Delivery)

  function Start(p: Payload): State {
    State(Publish([], p), map[], 0, 0, [])
  }

  function At(s: State, d: Delivery, h: Handling): State { s.(handling := s.handling[d := h]) }

  function Step(s: State, e: Event): State {
    if e.Take? then
      if Waiting(s.queue, e.d.msg) && e.d.tag == s.queue[e.d.msg].deliveries + 1 && e.d !in s.handling then
        s.(queue := Deliver(s.queue, e.d.msg), handling := s.handling[e.d := Handling(s.queue[e.d.msg].body, Started)])
      else s
    else if e.Lose? then s.(queue := Return(s.queue, e.d.msg, e.d.tag))
    else if e.d !in s.handling then s
    else Handle(s, e, s.handling[e.d])
  }

  function Handle(s: State, e: Event, h: Handling): State {
    match e
    case Resolve(d, r) =>
      if h.pc.Started? then
        At(s, d, h.(pc := match r
                          case Configured => Resolved
                          case NotConfigured => Answered(Permanent)
                          case LookupBroke => Answered(Unhandled)))
      else s
    case Post(d, reply) =>
      if !h.pc.Resolved? then s
      else
        var outcome := AttemptDelivery(reply);
        if outcome.Delivered? then
          At(s, d, h.(pc := Closing)).(posts := s.posts + 1, delivered := s.delivered + 1)
        else At(s, d, h.(pc := Answered(outcome))).(posts := s.posts + 1)
    case Act(d, now) =>
      // The handler of DispatchError.
      if !h.pc.Answered? || h.pc.outcome.Unhandled? then s
      else if h.pc.outcome.Retryable? && ShouldRetry(Attempt(h.payload)) then
        // compute_backoff raises for a negative attempt, and the handler ends like any that raises.
        if Attempt(h.payload) < 0 then s
        else At(s, d, h.(pc := Closing))
        .(queue := Publish(s.queue, BuildRetryMessage(h.payload, Attempt(h.payload))))
      else
        At(s, d, h.(pc := Closing)).(dead := s.dead + [BuildDeadLetter(h.payload, "", now)])
    case AckIt(d) =>
      if h.pc.Closing? then
        s.(handling := s.handling - {d}, queue := Ack(s.queue, d.msg, d.tag))
      else s
    case Raise(d) =>
      // Another exception, or one raised while handling: reject with requeue.
      if h.pc.Answered? then
        s.(handling := s.handling - {d}, queue := Return(s.queue, d.msg, d.tag))
      else s
    case Crash(d) => s.(handling := s.handling - {d})
    case _ => s
  }

  ghost predicate IsRun(p: Payload, states: seq<State>, log: seq<Event>) {
    && |states| == |log| + 1
    && states[0] == Start(p)
    && forall i {:trigger log[i]} :: 0 <= i < |log| ==> states[i + 1] == Step(states[i], log[i])
  }

  ghost predicate HandlingOk(s: State, d: Delivery) {
    && d in s.handling
    && d.msg < |s.queue| && 1 <= d.tag <= s.queue[d.msg].deliveries
    && s.handling[d].payload == s.queue[d.msg].body
  }

  ghost predicate Inv(s: State) {
    Sound(s.queue) && forall d | d in s.handling :: HandlingOk(s, d)
  }

  /** What an event does to the queue. */
  ghost predicate QueueMoves(s: State, s': State, d: Delivery) {
    || s'.queue == s.queue
    || (Waiting(s.queue, d.msg) && s'.queue == Deliver(s.queue, d.msg))
    || s'.queue == Ack(s.queue, d.msg, d.tag)
    || s'.queue == Return(s.queue, d.msg, d.tag)
    || exists p :: s'.queue == Publish(s.queue, p)
  }

  lemma StepMovesTheQueue(s: State, e: Event)
    ensures QueueMoves(s, Step(s, e), e.d)
  {
    hide Ack, Return, Publish, BuildDeadLetter, AttemptDelivery;
  }

  lemma QueueStaysSound(s: State, e: Event)
    requires Sound(s.queue)
    ensures Sound(Step(s, e).queue) && Extends(s.queue, Step(s, e).queue)
  {
    StepMovesTheQueue(s, e);
    hide Step, Ack, Return;
    if Waiting(s.queue, e.d.msg) { DeliveringIsSound(s.queue, e.d.msg); }
    SettlingIsSound(s.queue, e.d.msg, e.d.tag, Ack(s.queue, e.d.msg, e.d.tag));
    SettlingIsSound(s.queue, e.d.msg, e.d.tag, Return(s.queue, e.d.msg, e.d.tag));
  }

  /** A handler's record comes from its delivery or was there before. */
  lemma HandlersStay(s: State, e: Event, d: Delivery)
    requires d in Step(s, e).handling
    ensures if d in s.handling then Step(s, e).handling[d].payload == s.handling[d].payload
            else Waiting(s.queue, d.msg) && d.tag == s.queue[d.msg].deliveries + 1
                 && Step(s, e) == s.(queue := Deliver(s.queue, d.msg), handling := s.handling[d := Handling(s.queue[d.msg].body, Started)])
  {
    hide Ack, Return, Publish, Deliver, BuildDeadLetter, BuildRetryMessage, Attempt, AttemptDelivery;
  }

  lemma StepKeeps(s: State, e: Event)
    requires Inv(s)
    ensures Inv(Step(s, e)) && Extends(s.queue, Step(s, e).queue)
  {
    QueueStaysSound(s, e);
    var s' := Step(s, e);
    forall d | d in s'.handling ensures HandlingOk(s', d) {
      HandlersStay(s, e, d);
      hide Step;
      if d in s.handling { assert HandlingOk(s, d); }
    }
  }

  lemma {:induction false} RunKeeps(p: Payload, states: seq<State>, log: seq<Event>, n: nat)
    requires IsRun(p, states, log) && n <= |log|
    ensures Inv(states[n])
  {
    if n > 0 {
      RunKeeps(p, states, log, n - 1);
      StepKeeps(states[n - 1], log[n - 1]);
    }
  }
}
