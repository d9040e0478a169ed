/** dispatcher/orchestrator/processor.py: process_webhook as the sequential code it is.

    Between two effects the other handlers and the broker may do anything they can, or the
    process may die.  The ghost log shows that the code takes exactly the events of the
    dispatcher machine, so the bounds proved of its runs are bounds on this code. */
module DispatcherNode {
  import opened Broker
  import opened Retry
  import opened Dispatcher

  datatype Ending = Sent | Republished | DeadLettered | Requeued | Died

  /** What the answers of the configuration lookup and of the endpoint lead to. */
  function Expected(p: Payload, resolution: Resolution, reply: Reply): Ending {
    match resolution
    case LookupBroke => Requeued
    case NotConfigured => DeadLettered
    case Configured => Decided(p, AttemptDelivery(reply))
  }

  function Decided(p: Payload, outcome: Attempted): Ending {
    match outcome
    case Delivered => Sent
    case Permanent => DeadLettered
    case Unhandled => Requeued
    case Retryable => if !ShouldRetry(Attempt(p)) then DeadLettered else if Attempt(p) < 0 then Requeued else Republished
  }

  /** Publishing was called for, and done unless it failed. */
  predicate Published(end: Ending, wanted: Ending, published: bool) {
    end == wanted || (end == Requeued && !published)
  }

  /** What a retryable failure of attempt `k`, counted from 0, leads to: three attempts are made. */
  predicate Retries(end: Ending, k: int, published: bool) {
    if k < 0 then end == Requeued
    else if k <= 1 then Published(end, Republished, published)
    else Published(end, DeadLettered, published)
  }

  /** What the answers lead to, read off the status code. */
  predicate Justified(end: Ending, k: int, resolution: Resolution, reply: Reply, published: bool) {
    match resolution
    case LookupBroke => end == Requeued
    case NotConfigured => Published(end, DeadLettered, published)
    case Configured =>
      match reply
      case Timeout => Retries(end, k, published)
      case Broken => end == Requeued
      case Status(code) =>
        if 200 <= code <= 299 then end == Sent
        else if 300 <= code <= 428 then Published(end, DeadLettered, published)
        else if code == 429 || 500 <= code then Retries(end, k, published)
        else end == Requeued
  }

  lemma ExpectedIsJustified(p: Payload, resolution: Resolution, reply: Reply, published: bool, end: Ending)
    requires var wanted := Expected(p, resolution, reply); end == wanted || (end == Requeued && !published && wanted in {Republished, DeadLettered})
    ensures Justified(end, Attempt(p), resolution, reply, published)
  {
    hide Attempt;
  }

  /** The attempt an event says it is: the first, if it does not say. */
  ghost predicate IsAttempt(p: Payload, k: int) {
    if "attempt" !in p then k == 0 else p["attempt"].Number? ==> p["attempt"].n == k
  }

  /** The events a handler takes up to the outcome, and from there. */
  function FirstEvents(d: Delivery, resolution: Resolution, reply: Reply): seq<Event> {
    [Take(d), Resolve(d, resolution)] + if resolution.Configured? then [Post(d, reply)] else []
  }

  function LastEvents(d: Delivery, now: int, end: Ending): seq<Event> {
    match end
    case Sent => [AckIt(d)]
    case Requeued => [Raise(d)]
    case _ => [Act(d, now), AckIt(d)]
  }

  /** The handler of delivery `d` does this event itself. */
  predicate ActsFor(e: Event, d: Delivery) { e.d == d && !e.Lose? }

  function Own(log: seq<Event>, d: Delivery): seq<Event> {
    if log == [] then [] else Own(log[..|log| - 1], d) + if ActsFor(log[|log| - 1], d) then [log[|log| - 1]] else []
  }

  lemma OwnOfMore(log: seq<Event>, e: Event, d: Delivery)
    ensures Own(log + [e], d) == Own(log, d) + if ActsFor(e, d) then [e] else []
  {
    assert (log + [e])[..|log|] == log;
  }

  lemma OthersAreElsewhere(s: State, e: Event, d: Delivery)
    requires !ActsFor(e, d)
    ensures d in Step(s, e).handling <==> d in s.handling
    ensures d in s.handling ==> Step(s, e).handling[d] == s.handling[d]
  {
    hide BuildRetryMessage, BuildDeadLetter, Attempt, AttemptDelivery;
  }

  lemma CrashEnds(s: State, d: Delivery)
    ensures d !in Step(s, Crash(d)).handling
  {
  }

  /** What later events never undo. */
  ghost predicate Later(s: State, s': State) {
    && Extends(s.queue, s'.queue) && s.delivered <= s'.delivered && s.posts <= s'.posts && s.dead <= s'.dead
  }

  lemma StepIsLater(s: State, e: Event)
    requires Inv(s)
    ensures Later(s, Step(s, e))
  {
    StepKeeps(s, e);
    hide BuildRetryMessage, BuildDeadLetter, Attempt, AttemptDelivery, Ack, Return, Deliver, Extends, Inv;
  }

  class Node {
    const event: Payload
    var queue: Queue<Payload>
    var posts: nat
    var delivered: nat
    var dead: seq<Payload>
    var handling: map<Delivery, Handling>

    ghost var states: seq<State>
    ghost var log: seq<Event>

    function Now(): State
      reads this
    {
      State(queue, handling, posts, delivered, dead)
    }

    ghost predicate Valid()
      reads this
    {
      |states| == |log| + 1 && IsRun(event, states, log) && states[|log|] == Now()
    }

    constructor (p: Payload)
      ensures Valid() && event == p && Now() == Start(p) && log == []
    {
      event, queue, posts, delivered, dead, handling := p, Publish([], p), 0, 0, [], map[];
      states, log := [Start(p)], [];
    }

    /** The run has been extended, and nothing done is undone. */
    twostate predicate Went()
      reads this
    {
      Valid() && old(log) <= log && Later(old(Now()), Now())
    }

    /** The effect just made is the event `e`. */
    ghost method Did(e: Event)
      requires |states| == |log| + 1 && IsRun(event, states, log)
      requires Now() == Step(states[|log|], e)
      modifies `states, `log
      ensures Valid() && log == old(log) + [e] && old(states) <= states
      ensures Later(old(states[|log|]), Now())
    {
      RunKeeps(event, states, log, |log|);
      StepIsLater(states[|log|], e);
      hide Step, Later, Inv;
      states, log := states + [Now()], log + [e];
    }

    /** What this handler has done since its log had `n` entries. */
    ghost function Mine(n: nat, d: Delivery): seq<Event>
      requires n <= |log|
      reads this
    {
      Own(log[n..], d)
    }

    method Perform(e: Event)
      requires Valid()
      modifies this
      ensures Went() && Now() == Step(old(Now()), e) && log == old(log) + [e]
    {
      hide Step, IsRun, Later;
      var s := Step(Now(), e);
      queue, posts, delivered, dead, handling := s.queue, s.posts, s.delivered, s.dead, s.handling;
      Did(e);
    }

    ghost predicate Here(n: nat, d: Delivery, h: Handling, done: seq<Event>)
      reads this
    {
      Valid() && n <= |log| && d in handling && handling[d] == h && Mine(n, d) == done
    }

    lemma MineGrows(n: nat, d: Delivery, e: Event, log': seq<Event>)
      requires n <= |log| && log' == log + [e]
      ensures Own(log'[n..], d) == Mine(n, d) + if ActsFor(e, d) then [e] else []
    {
      OwnOfMore(log[n..], e, d);
      assert log[n..] + [e] == log'[n..];
    }

    /** `await`: everybody else moves on, and this process may die. */
    method Await(ghost n: nat, d: Delivery, ghost h: Handling, ghost done: seq<Event>) returns (alive: bool)
      requires Here(n, d, h, done)
      modifies this
      ensures Went() && n <= |log|
      ensures if alive then Here(n, d, h, done) else d !in handling && Settled(Died, d)
    {
      hide Step, IsRun, Own;
      var k: nat := *;
      while k > 0
        invariant Went() && Here(n, d, h, done)
      {
        var e: Event := *;
        if !ActsFor(e, d) {
          OthersAreElsewhere(Now(), e, d);
          MineGrows(n, d, e, log + [e]);
          Perform(e);
        }
        k := k - 1;
      }
      alive := *;
      if !alive {
        CrashEnds(Now(), d);
        Perform(Crash(d));
      }
    }

    /** `await config_resolver.get_webhook_config(developer_id)` */
    method GetConfig(ghost n: nat, d: Delivery, payload: Payload, resolution: Resolution, ghost done: seq<Event>) returns (alive: bool)
      requires Here(n, d, Handling(payload, Started), done)
      modifies this
      ensures Went() && n <= |log|
      ensures if alive then Here(n, d, Handling(payload, match resolution
                                                         case Configured => Resolved
                                                         case NotConfigured => Answered(Permanent)
                                                         case LookupBroke => Answered(Unhandled)), done + [Resolve(d, resolution)])
              else d !in handling && Settled(Died, d)
    {
      hide IsRun, Own;
      alive := Await(n, d, Handling(payload, Started), done);
      if alive {
        var pc := match resolution
          case Configured => Resolved
          case NotConfigured => Answered(Permanent)
          case LookupBroke => Answered(Unhandled);
        MineGrows(n, d, Resolve(d, resolution), log + [Resolve(d, resolution)]);
        handling := handling[d := Handling(payload, pc)];
        Did(Resolve(d, resolution));
      }
    }

    /** `await attempt_delivery(...)` */
    method PostIt(ghost n: nat, d: Delivery, payload: Payload, reply: Reply, ghost done: seq<Event>) returns (alive: bool)
      requires Here(n, d, Handling(payload, Resolved), done)
      modifies this
      ensures Went() && n <= |log|
      ensures if alive then
                var outcome := AttemptDelivery(reply);
                && Here(n, d, Handling(payload, if outcome.Delivered? then Closing else Answered(outcome)), done + [Post(d, reply)])
                && posts > old(posts) && (outcome.Delivered? ==> delivered > old(delivered))
              else d !in handling && Settled(Died, d)
    {
      hide IsRun, Own;
      alive := Await(n, d, Handling(payload, Resolved), done);
      if alive {
        var outcome := AttemptDelivery(reply);
        MineGrows(n, d, Post(d, reply), log + [Post(d, reply)]);
        posts := posts + 1;
        if outcome.Delivered? {
          delivered := delivered + 1;
          handling := handling[d := Handling(payload, Closing)];
        } else {
          handling := handling[d := Handling(payload, Answered(outcome))];
        }
        hide AttemptDelivery;
        Did(Post(d, reply));
      }
    }

    ghost predicate Achieved(end: Ending, before: State, payload: Payload, now: int)
      reads this
    {
      match end
      case Sent => delivered > before.delivered
      case Republished =>
        exists i :: |before.queue| <= i < |queue| && queue[i].body == BuildRetryMessage(payload, Retry.Attempt(payload))
      case DeadLettered => exists i :: |before.dead| <= i < |dead| && dead[i] == BuildDeadLetter(payload, "", now)
      case _ => true
    }

    /** Since `before` the event was delivered, or published with the next attempt, or published
        as a dead letter that says how many attempts were made. */
    ghost predicate Done(end: Ending, before: State, payload: Payload, k: int, now: int)
      reads this
    {
      match end
      case Sent => delivered > before.delivered
      case Republished =>
        exists i :: |before.queue| <= i < |queue| && queue[i].body == payload["attempt" := Number(k + 1)]
      case DeadLettered =>
        exists i :: |before.dead| <= i < |dead|
          && dead[i] == payload["final_error" := Text("")]["failed_at" := Number(now)]["attempts_made" := Number(k + 1)]
      case _ => true
    }

    lemma AchievedIsDone(end: Ending, before: State, payload: Payload, now: int)
      requires Achieved(end, before, payload, now)
      ensures Done(end, before, payload, Retry.Attempt(payload), now) && IsAttempt(payload, Retry.Attempt(payload))
    {
    }

    /** The state before the last event. */
    ghost function Last(): State
      reads this
    {
      if 0 < |log| < |states| then states[|log| - 1] else Now()
    }

    /** Where the message is when the handler ends, if it held it until then. */
    ghost predicate Settled(end: Ending, d: Delivery)
      reads this
    {
      match end
      case Died => log != [] && log[|log| - 1] == Crash(d)
      case Requeued => GoesBack(Last().queue, queue, d)
      case _ => Leaves(Last().queue, queue, d, Acked)
    }

    /** The handler of DispatchError: publish a retry or a dead letter. */
    method HandleDispatchError(ghost n: nat, d: Delivery, payload: Payload, retryable: bool, now: int, published: bool, ghost done: seq<Event>)
      returns (end: Ending)
      requires Here(n, d, Handling(payload, Answered(if retryable then Retryable else Permanent)), done)
      modifies this
      ensures Went() && n <= |log|
      ensures end == Died || (end == Requeued && !published && Decided(payload, if retryable then Retryable else Permanent) in {Republished, DeadLettered})
              || end == Decided(payload, if retryable then Retryable else Permanent)
      ensures end != Died ==> if retryable then Retries(end, Retry.Attempt(payload), published) else Published(end, DeadLettered, published)
      ensures match end
              case Died => d !in handling && Settled(Died, d)
              case Requeued => Here(n, d, Handling(payload, Answered(if retryable then Retryable else Permanent)), done)
              case _ => Here(n, d, Handling(payload, Closing), done + [Act(d, now)]) && Achieved(end, old(Now()), payload, now)
    {
      hide IsRun, Own, BuildDeadLetter, BuildRetryMessage, Retry.Attempt;
      var alive := Await(n, d, Handling(payload, Answered(if retryable then Retryable else Permanent)), done);
      if !alive { return Died; }
      var attempt := Retry.Attempt(payload);
      if retryable && ShouldRetry(attempt) && attempt < 0 { return Requeued; }
      if !published { return Requeued; }
      MineGrows(n, d, Act(d, now), log + [Act(d, now)]);
      handling := handling[d := Handling(payload, Closing)];
      if retryable && ShouldRetry(attempt) {
        queue := Publish(queue, BuildRetryMessage(payload, attempt));
        assert queue[|queue| - 1].body == BuildRetryMessage(payload, attempt);
        end := Republished;
      } else {
        dead := dead + [BuildDeadLetter(payload, "", now)];
        assert dead[|dead| - 1] == BuildDeadLetter(payload, "", now);
        end := DeadLettered;
      }
      Did(Act(d, now));
    }

    /** Leaving `message.process` normally. */
    method Leave(ghost n: nat, d: Delivery, payload: Payload, ghost done: seq<Event>) returns (alive: bool)
      requires Here(n, d, Handling(payload, Closing), done)
      modifies this
      ensures Went() && n <= |log| && d !in handling
      ensures alive ==> Mine(n, d) == done + [AckIt(d)] && !Current(queue, d.msg, d.tag)
      ensures Settled(if alive then Sent else Died, d)
    {
      hide IsRun, Own;
      alive := Await(n, d, Handling(payload, Closing), done);
      if alive {
        MineGrows(n, d, AckIt(d), log + [AckIt(d)]);
        queue := Ack(queue, d.msg, d.tag);
        handling := handling - {d};
        Did(AckIt(d));
      }
    }

    /** Leaving it by an exception: `requeue=True`. */
    method GiveBack(ghost n: nat, d: Delivery, payload: Payload, outcome: Attempted, ghost done: seq<Event>) returns (alive: bool)
      requires Here(n, d, Handling(payload, Answered(outcome)), done)
      modifies this
      ensures Went() && n <= |log| && d !in handling
      ensures alive ==> Mine(n, d) == done + [Raise(d)] && !Current(queue, d.msg, d.tag)
      ensures Settled(if alive then Requeued else Died, d)
    {
      hide IsRun, Own;
      alive := Await(n, d, Handling(payload, Answered(outcome)), done);
      if alive {
        MineGrows(n, d, Raise(d), log + [Raise(d)]);
        queue := Return(queue, d.msg, d.tag);
        handling := handling - {d};
        Did(Raise(d));
      }
    }

    method Take(d: Delivery) returns (payload: Payload)
      requires Valid() && Waiting(queue, d.msg) && d.tag == queue[d.msg].deliveries + 1 && d !in handling
      modifies this
      ensures Went() && payload == old(queue[d.msg].body)
      ensures Here(|old(log)|, d, Handling(payload, Started), [Event.Take(d)])
    {
      hide IsRun, Own;
      payload := queue[d.msg].body;
      MineGrows(|log|, d, Event.Take(d), log + [Event.Take(d)]);
      assert Mine(|log|, d) == [] by { assert log[|log|..] == []; OwnOfNothing(d); }
      queue := Deliver(queue, d.msg);
      handling := handling[d := Handling(payload, Started)];
      Did(Event.Take(d));
    }

    lemma OwnOfNothing(d: Delivery)
      ensures Own([], d) == []
    {
    }

    /** Once the outcome of the attempt is known. */
    method Finish(ghost n: nat, d: Delivery, payload: Payload, outcome: Attempted, now: int, published: bool,
                  ghost before: State, ghost done: seq<Event>) returns (end: Ending)
      requires Here(n, d, Handling(payload, if outcome.Delivered? then Closing else Answered(outcome)), done)
      requires Later(before, Now()) && (outcome.Delivered? ==> delivered > before.delivered)
      modifies this
      ensures Went() && n <= |log| && d !in handling && Achieved(end, before, payload, now)
      ensures Settled(end, d)
      ensures end == Died || end == Decided(payload, outcome)
              || (end == Requeued && !published && Decided(payload, outcome) in {Republished, DeadLettered})
      ensures end != Died ==> Mine(n, d) == done + LastEvents(d, now, end) && !Current(queue, d.msg, d.tag)
    {
      hide IsRun, Own, BuildDeadLetter, BuildRetryMessage, Retry.Attempt;
      ghost var closing := done;
      if outcome.Unhandled? {
        end := Requeued;
      } else if outcome.Delivered? {
        end := Sent;
      } else {
        end := HandleDispatchError(n, d, payload, outcome.Retryable?, now, published, done);
        if end == Died { return; }
        closing := if end == Requeued then done else done + [Act(d, now)];
      }
      var alive;
      if end == Requeued {
        alive := GiveBack(n, d, payload, outcome, closing);
      } else {
        alive := Leave(n, d, payload, closing);
      }
      if !alive { end := Died; }
    }

    /** The webhook of one delivery, from its receipt to its settling.  Unless the process dies
        the status code decides: 2xx is delivered; 300 to 428 a dead letter; 429, 500 and above and
        timeouts are published again as long as fewer than three attempts were made, and a dead
        letter after that; anything else, and a failed publish, goes back to the broker. */
    method ProcessWebhook(d: Delivery, resolution: Resolution, reply: Reply, now: int, published: bool) returns (end: Ending)
      requires Valid() && Waiting(queue, d.msg) && d.tag == queue[d.msg].deliveries + 1 && d !in handling
      modifies this
      ensures Went() && d !in handling
      ensures var payload := old(queue[d.msg].body);
              exists k ::
                && IsAttempt(payload, k) && Done(end, old(Now()), payload, k, now)
                && (end != Died ==> Justified(end, k, resolution, reply, published))
      ensures Settled(end, d)
      ensures end != Died ==> Own(log[|old(log)|..], d) == FirstEvents(d, resolution, reply) + LastEvents(d, now, end)
      ensures end != Died ==> !Current(queue, d.msg, d.tag)
    {
      hide IsRun, Own, BuildDeadLetter, BuildRetryMessage, Retry.Attempt;
      ghost var n, before := |log|, Now();
      var payload := Take(d);
      AchievedIsDone(Died, before, payload, now);
      var alive := GetConfig(n, d, payload, resolution, [Event.Take(d)]);
      if !alive { return Died; }
      var outcome := if resolution.NotConfigured? then Permanent else Unhandled;
      if resolution.Configured? {
        outcome := AttemptDelivery(reply);
        alive := PostIt(n, d, payload, reply, [Event.Take(d), Resolve(d, resolution)]);
        if !alive { return Died; }
      }
      hide AttemptDelivery;
      end := Finish(n, d, payload, outcome, now, published, before, FirstEvents(d, resolution, reply));
      AchievedIsDone(end, before, payload, now);
      if end != Died { ExpectedIsJustified(payload, resolution, reply, published, end); }
    }
  }
}
