/** Runs of the dispatcher in which no worker dies and no connection drops: the messages
    form one chain of retries, and exactly one thing has become of the event. */
module DispatcherChain {
  import opened Broker
  import opened Retry
  import opened Dispatcher

  ghost predicate CrashFree(log: seq<Event>) {
    forall i :: 0 <= i < |log| ==> !log[i].Crash? && !log[i].Lose?
  }

  /** Every lookup and POST ended well or in a DispatchError, and every publish succeeded. */
  ghost predicate NothingRaised(log: seq<Event>) {
    forall i :: 0 <= i < |log| ==> !log[i].Raise?
  }

  function Holder(s: State, i: nat): Delivery
    requires i < |s.queue|
  {
    Delivery(i, s.queue[i].deliveries)
  }

  /** Message `i` has been acknowledged, or all that is left to do is to acknowledge it. */
  predicate Dealt(s: State, i: nat)
    requires i < |s.queue|
  {
    || s.queue[i].place.Acked?
    || (s.queue[i].place.Held? && Holder(s, i) in s.handling && s.handling[Holder(s, i)].pc.Closing?)
  }

  /** Message `i` may still lead to something. */
  predicate Live(s: State, i: nat)
    requires i < |s.queue|
  {
    !Dealt(s, i) && !s.queue[i].place.Dead?
  }

  function LiveMessages(s: State, n: nat): nat
    requires n <= |s.queue|
  {
    if n == 0 then 0 else LiveMessages(s, n - 1) + if Live(s, n - 1) then 1 else 0
  }

  /** Messages the broker itself has dead-lettered. */
  function Dropped(s: State, n: nat): nat
    requires n <= |s.queue|
  {
    if n == 0 then 0 else Dropped(s, n - 1) + if s.queue[n - 1].place.Dead? then 1 else 0
  }

  function Deliveries(q: Queue<Payload>, n: nat): nat
    requires n <= |q|
  {
    if n == 0 then 0 else Deliveries(q, n - 1) + q[n - 1].deliveries
  }

  ghost predicate DeadLetterOf(p: Payload, n: nat, m: Payload) {
    exists now :: m == BuildDeadLetter(Retried(p, n), "", now)
  }

  /** Every handler holds its delivery, and every held delivery has its handler. */
  ghost predicate Attended(s: State) {
    && (forall d | d in s.handling :: Current(s.queue, d.msg, d.tag) && s.handling[d].payload == s.queue[d.msg].body)
    && (forall i :: 0 <= i < |s.queue| && s.queue[i].place.Held? ==> Holder(s, i) in s.handling)
  }

  /** Message `i` is the i-th retry, published because the one before was dealt with. */
  ghost predicate Links(p: Payload, s: State) {
    && (forall i :: 0 <= i < |s.queue| ==> s.queue[i].body == Retried(p, i))
    && (forall i :: 0 <= i < |s.queue| - 1 ==> !s.queue[i].place.Ready? && Dealt(s, i))
    && (|s.queue| >= 2 ==> 0 <= Attempt(p) && ShouldRetry(Attempt(p) + |s.queue| - 2))
  }

  /** What has been counted agrees with the last message of the chain. */
  ghost predicate Counts(p: Payload, s: State)
    requires s.queue != []
  {
    && s.delivered + |s.dead| == (if Dealt(s, |s.queue| - 1) then 1 else 0)
    && (forall i :: 0 <= i < |s.dead| ==> DeadLetterOf(p, |s.queue| - 1, s.dead[i]))
  }

  predicate Unposted(s: State, i: nat)
    requires i < |s.queue|
  {
    Holder(s, i) in s.handling && (s.handling[Holder(s, i)].pc.Started? || s.handling[Holder(s, i)].pc.Resolved?)
  }

  /** A delivery makes one POST at most. */
  ghost predicate Posted(s: State)
    requires s.queue != []
  {
    s.posts + (if Unposted(s, |s.queue| - 1) then 1 else 0) <= Deliveries(s.queue, |s.queue|)
  }

  ghost predicate Chain(p: Payload, s: State) {
    s.queue != [] && Sound(s.queue) && Attended(s) && Links(p, s) && Counts(p, s) && Posted(s)
  }

  lemma {:induction false} DeliveriesMove(q: Queue<Payload>, q': Queue<Payload>, i: nat, n: nat)
    requires n <= |q| && n <= |q'|
    requires forall k :: 0 <= k < n && k != i ==> q'[k].deliveries == q[k].deliveries
    ensures i < n ==> Deliveries(q', n) - Deliveries(q, n) == q'[i].deliveries - q[i].deliveries
    ensures i >= n ==> Deliveries(q', n) == Deliveries(q, n)
  {
    if n > 0 { DeliveriesMove(q, q', i, n - 1); }
  }

  /** Only message `d.msg` and its handler `d` change. */
  ghost predicate Touches(s: State, s': State, d: Delivery) {
    && |s'.queue| == |s.queue| && d.msg < |s.queue| && s'.queue[d.msg].body == s.queue[d.msg].body
    && (forall i :: 0 <= i < |s.queue| && i != d.msg ==> s'.queue[i] == s.queue[i])
    && (forall e: Delivery :: e != d ==> (e in s'.handling <==> e in s.handling) && (e in s.handling ==> s'.handling[e] == s.handling[e]))
    && (d in s'.handling ==> s'.handling[d].payload == s.queue[d.msg].body)
  }

  lemma LinksStay(p: Payload, s: State, s': State, d: Delivery)
    requires Links(p, s) && Touches(s, s', d)
    requires d.msg < |s.queue| - 1 ==> Dealt(s', d.msg)
    ensures Links(p, s')
  {
    hide Retried, Attempt, ShouldRetry;
    forall i | 0 <= i < |s'.queue| - 1 ensures !s'.queue[i].place.Ready? && Dealt(s', i) {
      assert Dealt(s, i) && (i != d.msg ==> s'.queue[i] == s.queue[i]);
    }
  }

  lemma AttendedStays(s: State, s': State, d: Delivery)
    requires Attended(s) && Touches(s, s', d)
    requires s.queue[d.msg].place.Held? ==> d == Holder(s, d.msg)
    requires d in s'.handling <==> Current(s'.queue, d.msg, d.tag)
    requires s'.queue[d.msg].place.Held? ==> d == Holder(s', d.msg)
    ensures Attended(s')
  {
  }

  /** Only the last message can be taken, and only its handler can do more than acknowledge. */
  lemma OnlyTheLast(p: Payload, s: State, i: nat)
    requires Links(p, s) && i < |s.queue| && !Dealt(s, i)
    ensures i == |s.queue| - 1
  {
  }

  lemma TakeIs(s: State, d: Delivery)
    ensures Step(s, Take(d)) ==
            if Waiting(s.queue, d.msg) && d.tag == s.queue[d.msg].deliveries + 1 && d !in s.handling then
              s.(queue := Deliver(s.queue, d.msg), handling := s.handling[d := Handling(s.queue[d.msg].body, Started)])
            else s
  {
    hide Deliver;
  }

  ghost predicate Taken(s: State, d: Delivery, s': State) {
    && Waiting(s.queue, d.msg) && d.tag == s.queue[d.msg].deliveries + 1
    && s' == s.(queue := Deliver(s.queue, d.msg), handling := s.handling[d := Handling(s.queue[d.msg].body, Started)])
  }

  lemma TakenCounts(p: Payload, s: State, d: Delivery, s': State)
    requires Chain(p, s) && Taken(s, d, s') && d.msg == |s.queue| - 1
    ensures Counts(p, s') && Posted(s')
  {
    hide Retried, DeadLetterOf, Deliveries, Sound, Links, Attended;
    DeliveriesMove(s.queue, s'.queue, d.msg, |s.queue|);
  }

  lemma TakeKeeps(p: Payload, s: State, d: Delivery)
    requires Chain(p, s)
    ensures Chain(p, Step(s, Take(d)))
  {
    hide Step, Retried, Attempt, ShouldRetry, Sound, Posted, Counts;
    var s' := Step(s, Take(d));
    TakeIs(s, d);
    if Waiting(s.queue, d.msg) && d.tag == s.queue[d.msg].deliveries + 1 && d !in s.handling {
      OnlyTheLast(p, s, d.msg);
      DeliveringIsSound(s.queue, d.msg);
      TakenCounts(p, s, d, s');
      LinksStay(p, s, s', d);
      AttendedStays(s, s', d);
    }
  }

  /** Steps inside a handler that has not ended. */
  lemma ResolveKeeps(p: Payload, s: State, d: Delivery, r: Resolution)
    requires Chain(p, s) && d in s.handling
    ensures Chain(p, Step(s, Resolve(d, r)))
  {
    hide Links, Posted, Sound, DeadLetterOf;
    var s' := Step(s, Resolve(d, r));
    assert d == Holder(s, d.msg);
    if s.handling[d].pc.Started? {
      OnlyTheLast(p, s, d.msg);
      MovingOnKeeps(p, s, d, s'.handling[d], s');
    }
  }

  /** A handler moves on without touching the queue. */
  lemma MovingOnKeeps(p: Payload, s: State, d: Delivery, h: Handling, s': State)
    requires Chain(p, s) && d in s.handling && d == Holder(s, d.msg) && !s.handling[d].pc.Closing?
    requires h.payload == s.handling[d].payload && s'.queue == s.queue && s'.handling == s.handling[d := h]
    requires s'.delivered + |s'.dead| == if h.pc.Closing? then 1 else 0
    requires forall i :: 0 <= i < |s'.dead| ==> DeadLetterOf(p, |s.queue| - 1, s'.dead[i])
    requires s'.posts + One(h.pc.Started? || h.pc.Resolved?) <= s.posts + One(s.handling[d].pc.Started? || s.handling[d].pc.Resolved?)
    ensures Chain(p, s') && d.msg == |s.queue| - 1
  {
    hide Retried, Attempt, DeadLetterOf, ShouldRetry, Deliveries, Sound;
    OnlyTheLast(p, s, d.msg);
    LinksStay(p, s, s', d);
    AttendedStays(s, s', d);
    hide Links, Attended;
  }

  function One(b: bool): nat { if b then 1 else 0 }

  lemma PostIs(s: State, d: Delivery, reply: Reply)
    requires d in s.handling
    ensures var h, outcome := s.handling[d], AttemptDelivery(reply);
            Step(s, Post(d, reply)) ==
            if !h.pc.Resolved? then s
            else if outcome.Delivered? then At(s, d, h.(pc := Closing)).(posts := s.posts + 1, delivered := s.delivered + 1)
            else At(s, d, h.(pc := Answered(outcome))).(posts := s.posts + 1)
  {
    hide AttemptDelivery;
  }

  lemma PostKeeps(p: Payload, s: State, d: Delivery, reply: Reply)
    requires Chain(p, s) && d in s.handling
    ensures Chain(p, Step(s, Post(d, reply)))
  {
    hide Step, AttemptDelivery, Links, Posted, Sound, DeadLetterOf;
    PostIs(s, d, reply);
    var h, outcome := s.handling[d], AttemptDelivery(reply);
    assert d == Holder(s, d.msg);
    if h.pc.Resolved? {
      OnlyTheLast(p, s, d.msg);
      MovingOnKeeps(p, s, d, h.(pc := if outcome.Delivered? then Closing else Answered(outcome)), Step(s, Post(d, reply)));
    }
  }

  lemma AckKeeps(p: Payload, s: State, d: Delivery)
    requires Chain(p, s) && d in s.handling
    ensures Chain(p, Step(s, AckIt(d)))
  {
    hide Retried, Attempt, DeadLetterOf, ShouldRetry, Deliveries;
    var s' := Step(s, AckIt(d));
    assert d == Holder(s, d.msg) && Current(s.queue, d.msg, d.tag);
    if s.handling[d].pc.Closing? {
      SettlingIsSound(s.queue, d.msg, d.tag, s'.queue);
      assert s' == s.(queue := s.queue[d.msg := s.queue[d.msg].(place := Acked)], handling := s.handling - {d});
      AckedStays(p, s, d, s');
    }
  }

  ghost predicate Acknowledged(s: State, d: Delivery, s': State) {
    && d in s.handling && s.handling[d].pc.Closing? && d.msg < |s.queue| && d == Holder(s, d.msg) && s.queue[d.msg].place.Held?
    && s' == s.(queue := s.queue[d.msg := s.queue[d.msg].(place := Acked)], handling := s.handling - {d})
  }

  lemma AckedCounts(p: Payload, s: State, d: Delivery, s': State)
    requires Chain(p, s) && Acknowledged(s, d, s')
    ensures Counts(p, s') && Posted(s')
  {
    hide Retried, DeadLetterOf, Deliveries, Sound, Links, Attended;
    DeliveriesMove(s.queue, s'.queue, d.msg, |s.queue|);
  }

  lemma AckedStays(p: Payload, s: State, d: Delivery, s': State)
    requires Chain(p, s) && Acknowledged(s, d, s') && Sound(s'.queue)
    ensures Chain(p, s')
  {
    hide Retried, Attempt, ShouldRetry, Sound, Posted, Counts;
    AckedCounts(p, s, d, s');
    LinksStay(p, s, s', d);
    AttendedStays(s, s', d);
  }

  lemma RaiseIs(s: State, d: Delivery)
    requires d in s.handling
    ensures Step(s, Raise(d)) ==
            if s.handling[d].pc.Answered? then s.(handling := s.handling - {d}, queue := Return(s.queue, d.msg, d.tag)) else s
  {
    hide Return;
  }

  lemma RaiseKeeps(p: Payload, s: State, d: Delivery)
    requires Chain(p, s) && d in s.handling
    ensures Chain(p, Step(s, Raise(d)))
  {
    hide Step, Retried, Attempt, DeadLetterOf, ShouldRetry, Deliveries;
    var s' := Step(s, Raise(d));
    RaiseIs(s, d);
    assert d == Holder(s, d.msg);
    SettlingIsSound(s.queue, d.msg, d.tag, Return(s.queue, d.msg, d.tag));
    hide Sound;
    if s.handling[d].pc.Answered? {
      OnlyTheLast(p, s, d.msg);
      LinksStay(p, s, s', d);
      AttendedStays(s, s', d);
      DeliveriesMove(s.queue, s'.queue, d.msg, |s.queue|);
      hide Links, Attended;
    }
  }

  lemma GiveUpKeeps(p: Payload, s: State, d: Delivery, now: int)
    requires Chain(p, s) && d in s.handling
    requires |Step(s, Act(d, now)).queue| == |s.queue|
    ensures Chain(p, Step(s, Act(d, now)))
  {
    hide Posted, Sound, DeadLetterOf, Attempt, ShouldRetry, BuildDeadLetter, BuildRetryMessage, Retried;
    var s' := Step(s, Act(d, now));
    assert d == Holder(s, d.msg);
    if s' != s {
      OnlyTheLast(p, s, d.msg);
      GivenUp(p, d.msg, now);
      MovingOnKeeps(p, s, d, s.handling[d].(pc := Closing), s');
    }
  }

  lemma GivenUp(p: Payload, n: nat, now: int)
    ensures DeadLetterOf(p, n, BuildDeadLetter(Retried(p, n), "", now))
  {
  }

  lemma RetryIsNext(p: Payload, s: State, d: Delivery, now: int)
    requires Chain(p, s) && d in s.handling
    requires |Step(s, Act(d, now)).queue| > |s.queue|
    ensures var s', n := Step(s, Act(d, now)), |s.queue| - 1;
            && d == Holder(s, n) && s.queue[n].place.Held? && !Dealt(s, n) && 0 <= Attempt(p) + n && ShouldRetry(Attempt(p) + n)
            && s'.queue == s.queue + [Message(Retried(p, n + 1), 0, 0, Ready)]
            && s' == s.(queue := s'.queue, handling := s.handling[d := s.handling[d].(pc := Closing)])
  {
    hide Sound, Counts, Posted;
    assert d == Holder(s, d.msg);
    OnlyTheLast(p, s, d.msg);
    hide Links, BuildDeadLetter, ShouldRetry;
    RetriesKeepThePayload(p, d.msg, "", now);
    hide Attempt;
  }

  lemma LinksGrow(p: Payload, s: State, d: Delivery, s': State)
    requires s.queue != [] && Links(p, s) && d == Holder(s, |s.queue| - 1) && d in s.handling
    requires s.queue[d.msg].place.Held? && 0 <= Attempt(p) + |s.queue| - 1 && ShouldRetry(Attempt(p) + |s.queue| - 1)
    requires s'.queue == s.queue + [Message(Retried(p, |s.queue|), 0, 0, Ready)]
    requires s'.handling == s.handling[d := s.handling[d].(pc := Closing)]
    ensures Links(p, s')
  {
    hide Retried, Attempt, ShouldRetry;
    forall i | 0 <= i < |s'.queue| - 1 ensures !s'.queue[i].place.Ready? && Dealt(s', i) {
      if i < |s.queue| - 1 { assert Dealt(s, i); }
    }
  }

  lemma RetryKeeps(p: Payload, s: State, d: Delivery, now: int)
    requires Chain(p, s) && d in s.handling
    requires |Step(s, Act(d, now)).queue| > |s.queue|
    ensures Chain(p, Step(s, Act(d, now)))
  {
    hide Attempt, DeadLetterOf, Step, ShouldRetry, Retried, Deliveries;
    var s' := Step(s, Act(d, now));
    RetryIsNext(p, s, d, now);
    LinksGrow(p, s, d, s');
    hide Links;
    DeliveriesGrow(s.queue, s'.queue);
  }

  lemma DeliveriesGrow(q: Queue<Payload>, q': Queue<Payload>)
    requires |q'| == |q| + 1 && q'[|q|].deliveries == 0
    requires forall i :: 0 <= i < |q| ==> q'[i] == q[i]
    ensures Deliveries(q', |q'|) == Deliveries(q, |q|)
  {
    DeliveriesMove(q, q', |q|, |q|);
  }

  lemma ActNeverForgets(s: State, d: Delivery, now: int)
    ensures |s.queue| <= |Step(s, Act(d, now)).queue|
  {
  }

  lemma StepKeepsChain(p: Payload, s: State, e: Event)
    requires Chain(p, s) && !e.Crash? && !e.Lose?
    ensures Chain(p, Step(s, e))
  {
    hide Chain;
    if e.Take? {
      TakeKeeps(p, s, e.d);
    } else if e.d in s.handling {
      match e
      case Act(d, now) =>
        if |Step(s, e).queue| > |s.queue| { RetryKeeps(p, s, d, now); } else { ActNeverForgets(s, d, now); GiveUpKeeps(p, s, d, now); }
      case AckIt(_) => AckKeeps(p, s, e.d);
      case Raise(_) => RaiseKeeps(p, s, e.d);
      case Resolve(d, r) => ResolveKeeps(p, s, d, r);
      case Post(d, reply) => PostKeeps(p, s, d, reply);
    }
  }

  lemma {:induction false} RunKeepsChain(p: Payload, states: seq<State>, log: seq<Event>, n: nat)
    requires IsRun(p, states, log) && CrashFree(log) && n <= |log|
    ensures Chain(p, states[n])
  {
    if n == 0 {
      StartIsChain(p);
    } else {
      RunKeepsChain(p, states, log, n - 1);
      StepKeepsChain(p, states[n - 1], log[n - 1]);
      hide Chain, Step;
      assert states[n - 1 + 1] == Step(states[n - 1], log[n - 1]);
    }
  }

  lemma StartIsChain(p: Payload)
    ensures Chain(p, Start(p))
  {
  }

  lemma {:induction false} BeforeTheLast(p: Payload, s: State, n: nat)
    requires Links(p, s) && n < |s.queue|
    ensures LiveMessages(s, n) == 0 && Dropped(s, n) == 0
  {
    hide Retried, Attempt, ShouldRetry;
    if n > 0 {
      BeforeTheLast(p, s, n - 1);
      assert Dealt(s, n - 1);
    }
  }

  /** While no worker dies, exactly one of these holds at every moment: the event still has
      one live message, it has been delivered once, it has one dead letter, or the broker
      has dropped it. */
  lemma OneOutcome(p: Payload, states: seq<State>, log: seq<Event>)
    requires IsRun(p, states, log) && CrashFree(log)
    ensures var s := states[|log|];
            LiveMessages(s, |s.queue|) + s.delivered + |s.dead| + Dropped(s, |s.queue|) == 1
  {
    RunKeepsChain(p, states, log, |log|);
    var s := states[|log|];
    BeforeTheLast(p, s, |s.queue| - 1);
    hide Links, Attended, Posted, Sound, DeadLetterOf;
  }

  lemma {:induction false} DeliveriesBound(q: Queue<Payload>, n: nat, c: nat)
    requires n <= |q| && forall i :: 0 <= i < |q| ==> q[i].deliveries <= c
    ensures Deliveries(q, n) <= n * c
  {
    if n > 0 {
      DeliveriesBound(q, n - 1, c);
      assert n * c == (n - 1) * c + c;
    }
  }

  lemma {:induction false} NothingComesBack(p: Payload, states: seq<State>, log: seq<Event>, n: nat)
    requires IsRun(p, states, log) && CrashFree(log) && NothingRaised(log) && n <= |log|
    ensures forall i :: 0 <= i < |states[n].queue| ==> states[n].queue[i].returned == 0 && !states[n].queue[i].place.Dead?
  {
    if n > 0 {
      NothingComesBack(p, states, log, n - 1);
      assert states[n - 1 + 1] == Step(states[n - 1], log[n - 1]);
      ReturnsNothing(states[n - 1], log[n - 1]);
      hide Step;
    }
  }

  lemma ReturnsNothing(s: State, e: Event)
    requires !e.Lose? && !e.Raise?
    requires forall i :: 0 <= i < |s.queue| ==> s.queue[i].returned == 0 && !s.queue[i].place.Dead?
    ensures forall i :: 0 <= i < |Step(s, e).queue| ==> Step(s, e).queue[i].returned == 0 && !Step(s, e).queue[i].place.Dead?
  {
    hide BuildDeadLetter, BuildRetryMessage, AttemptDelivery, Attempt;
  }

  /** So at most 3 messages and 12 POSTs; 3 POSTs when no handler raises, and then the broker
      drops nothing. */
  lemma PostsAreFew(p: Payload, states: seq<State>, log: seq<Event>)
    requires IsRun(p, states, log) && CrashFree(log)
    ensures |states[|log|].queue| <= 3 && states[|log|].posts <= 12
    ensures NothingRaised(log) ==>
              states[|log|].posts <= 3 && Dropped(states[|log|], |states[|log|].queue|) == 0
  {
    RunKeepsChain(p, states, log, |log|);
    var s := states[|log|];
    assert forall i :: 0 <= i < |s.queue| ==> SoundMessage(s.queue[i]);
    DeliveriesBound(s.queue, |s.queue|, 4);
    if NothingRaised(log) {
      NothingComesBack(p, states, log, |log|);
      DeliveriesBound(s.queue, |s.queue|, 1);
      NoneDropped(s, |s.queue|);
    }
    hide Retried, Attended, Counts, Attempt;
  }

  lemma {:induction false} NoneDropped(s: State, n: nat)
    requires n <= |s.queue| && forall i :: 0 <= i < |s.queue| ==> !s.queue[i].place.Dead?
    ensures Dropped(s, n) == 0
  {
    if n > 0 { NoneDropped(s, n - 1); }
  }

  /** Every retry and every dead letter carries the event unchanged, with the number of the
      attempt, which is its place in the chain. */
  lemma ChainsKeepThePayload(p: Payload, states: seq<State>, log: seq<Event>)
    requires IsRun(p, states, log) && CrashFree(log)
    ensures forall i, k :: 0 <= i < |states[|log|].queue| && k != "attempt" ==>
              var m := states[|log|].queue[i].body;
              Attempt(m) == Attempt(p) + i && (k in m <==> k in p) && (k in p ==> m[k] == p[k])
    ensures forall m | m in states[|log|].dead ::
              && "attempts_made" in m && m["attempts_made"] == Number(Attempt(p) + |states[|log|].queue|)
              && forall k :: k in p && k !in ["attempt", "final_error", "failed_at", "attempts_made"] ==> k in m && m[k] == p[k]
  {
    RunKeepsChain(p, states, log, |log|);
    var s := states[|log|];
    hide Attended, Posted, Sound;
    forall i | 0 <= i < |s.queue|
      ensures Attempt(s.queue[i].body) == Attempt(p) + i
      ensures forall k :: k != "attempt" ==> (k in s.queue[i].body <==> k in p) && (k in p ==> s.queue[i].body[k] == p[k])
    {
      RetriesKeepThePayload(p, i, "", 0);
      assert s.queue[i].body == Retried(p, i);
    }
    hide Attempt, Retried, BuildDeadLetter;
    forall m | m in s.dead
      ensures "attempts_made" in m && m["attempts_made"] == Number(Attempt(p) + |s.queue|)
      ensures forall k :: k in p && k !in ["attempt", "final_error", "failed_at", "attempts_made"] ==> k in m && m[k] == p[k]
    {
      var i :| 0 <= i < |s.dead| && s.dead[i] == m;
      assert DeadLetterOf(p, |s.queue| - 1, s.dead[i]);
      var now :| m == BuildDeadLetter(Retried(p, |s.queue| - 1), "", now);
      RetriesKeepThePayload(p, |s.queue| - 1, "", now);
    }
  }
}
