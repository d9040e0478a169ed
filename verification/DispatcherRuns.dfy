/** What holds in every run of the dispatcher, however often workers die and connections drop. */
module DispatcherRuns {
  import opened Broker
  import opened Retry
  import opened Dispatcher
  import opened DispatcherChain

  /***** Retries form a tree *****/

  /** `body` is the event after `k` retries, each of them called for. */
  ghost predicate AtDepth(p: Payload, body: Payload, k: nat) {
    body == Retried(p, k) && (k > 0 ==> 0 <= Attempt(p) && ShouldRetry(Attempt(p) + k - 1))
  }

  ghost predicate Descends(p: Payload, body: Payload) {
    exists k :: AtDepth(p, body, k)
  }

  /** `m` is the dead letter of a message `k` retries away from the event. */
  ghost predicate DeadAtDepth(p: Payload, m: Payload, k: nat) {
    DeadLetterOf(p, k, m) && (k > 0 ==> 0 <= Attempt(p) && ShouldRetry(Attempt(p) + k - 1))
  }

  ghost predicate DeadDescends(p: Payload, m: Payload) {
    exists k :: DeadAtDepth(p, m, k)
  }

  ghost predicate Tree(p: Payload, s: State) {
    && (forall i :: 0 <= i < |s.queue| ==> Descends(p, s.queue[i].body))
    && (forall i :: 0 <= i < |s.dead| ==> DeadDescends(p, s.dead[i]))
  }

  lemma RetryDescends(p: Payload, body: Payload)
    requires Descends(p, body) && 0 <= Attempt(body) && ShouldRetry(Attempt(body))
    ensures Descends(p, BuildRetryMessage(body, Attempt(body)))
  {
    var k: nat :| AtDepth(p, body, k);
    RetriesKeepThePayload(p, k, "", 0);
    hide Attempt, BuildRetryMessage;
    assert AtDepth(p, BuildRetryMessage(body, Attempt(body)), k + 1);
  }

  lemma DeadLetterDescends(p: Payload, body: Payload, now: int)
    requires Descends(p, body)
    ensures DeadDescends(p, BuildDeadLetter(body, "", now))
  {
    hide Attempt, Retried, BuildDeadLetter;
    var k: nat :| AtDepth(p, body, k);
    assert DeadLetterOf(p, k, BuildDeadLetter(body, "", now));
    assert DeadAtDepth(p, BuildDeadLetter(body, "", now), k);
  }

  /** A message or a dead letter is only added by handling a DispatchError. */
  lemma OnlyActAdds(s: State, e: Event)
    requires !e.Act?
    ensures Step(s, e).dead == s.dead && |Step(s, e).queue| == |s.queue|
    ensures forall i :: 0 <= i < |s.queue| ==> Step(s, e).queue[i].body == s.queue[i].body
  {
    hide AttemptDelivery;
  }

  lemma ActAdds(s: State, d: Delivery, now: int)
    ensures var s' := Step(s, Act(d, now));
            || (s'.queue == s.queue && s'.dead == s.dead)
            || (d in s.handling && s'.dead == s.dead && 0 <= Attempt(s.handling[d].payload) && ShouldRetry(Attempt(s.handling[d].payload))
                && s'.queue == Publish(s.queue, BuildRetryMessage(s.handling[d].payload, Attempt(s.handling[d].payload))))
            || (d in s.handling && s'.queue == s.queue && s'.dead == s.dead + [BuildDeadLetter(s.handling[d].payload, "", now)])
  {
    hide Attempt, BuildRetryMessage, BuildDeadLetter, Publish, ShouldRetry;
  }

  lemma StepKeepsTree(p: Payload, s: State, e: Event)
    requires Inv(s) && Tree(p, s)
    ensures Tree(p, Step(s, e))
  {
    hide Step, Descends, DeadDescends, Attempt, BuildRetryMessage, BuildDeadLetter, ShouldRetry;
    if e.Act? {
      ActAdds(s, e.d, e.now);
      if e.d in s.handling {
        assert HandlingOk(s, e.d);
        var body := s.handling[e.d].payload;
        assert body == s.queue[e.d.msg].body;
        if 0 <= Attempt(body) && ShouldRetry(Attempt(body)) { RetryDescends(p, body); }
        DeadLetterDescends(p, body, e.now);
      }
    } else {
      OnlyActAdds(s, e);
    }
  }

  lemma {:induction false} RunKeepsTree(p: Payload, states: seq<State>, log: seq<Event>, n: nat)
    requires IsRun(p, states, log) && n <= |log|
    ensures Tree(p, states[n])
  {
    if n == 0 {
      assert AtDepth(p, p, 0);
    } else {
      RunKeepsTree(p, states, log, n - 1);
      RunKeeps(p, states, log, n - 1);
      StepKeepsTree(p, states[n - 1], log[n - 1]);
      hide Tree, Step, Inv;
      assert states[n - 1 + 1] == Step(states[n - 1], log[n - 1]);
    }
  }

  /** `m` carries the event `p` unchanged, but for the attempt and what a dead letter adds. */
  ghost predicate Carries(m: Payload, p: Payload) {
    forall key :: key in p && key !in ["attempt", "final_error", "failed_at", "attempts_made"] ==> key in m && m[key] == p[key]
  }

  ghost predicate IsRetryOf(p: Payload, m: Payload, k: nat) {
    AtDepth(p, m, k) && Attempt(m) == Attempt(p) + k && Carries(m, p)
  }

  ghost predicate SomeRetryOf(p: Payload, m: Payload) {
    exists k :: IsRetryOf(p, m, k)
  }

  ghost predicate SomeDeadLetterOf(p: Payload, m: Payload) {
    exists k :: IsDeadLetterOf(p, m, k)
  }

  ghost predicate IsDeadLetterOf(p: Payload, m: Payload, k: nat) {
    DeadAtDepth(p, m, k) && Carries(m, p) && "attempts_made" in m && m["attempts_made"] == Number(Attempt(p) + k + 1)
  }

  /** In every run every message is the event with nothing changed but the attempt, which says
      how many retries led to it; and a dead letter is one of these with the number of attempts. */
  lemma PayloadsSurvive(p: Payload, states: seq<State>, log: seq<Event>)
    requires IsRun(p, states, log)
    ensures forall i :: 0 <= i < |states[|log|].queue| ==> SomeRetryOf(p, states[|log|].queue[i].body)
    ensures forall i :: 0 <= i < |states[|log|].dead| ==> SomeDeadLetterOf(p, states[|log|].dead[i])
  {
    hide Attempt, Retried, BuildDeadLetter, ShouldRetry;
    RunKeepsTree(p, states, log, |log|);
    var s := states[|log|];
    forall i | 0 <= i < |s.queue| ensures SomeRetryOf(p, s.queue[i].body) {
      assert Descends(p, s.queue[i].body);
      var k: nat :| AtDepth(p, s.queue[i].body, k);
      RetriesKeepThePayload(p, k, "", 0);
      assert IsRetryOf(p, s.queue[i].body, k);
    }
    forall i | 0 <= i < |s.dead| ensures SomeDeadLetterOf(p, s.dead[i]) {
      assert DeadDescends(p, s.dead[i]);
      var k: nat :| DeadAtDepth(p, s.dead[i], k);
      var now :| s.dead[i] == BuildDeadLetter(Retried(p, k), "", now);
      RetriesKeepThePayload(p, k, "", now);
      DeadLetterHasAttempts(Retried(p, k), now);
      assert IsDeadLetterOf(p, s.dead[i], k);
    }
  }

  lemma DeadLetterHasAttempts(m: Payload, now: int)
    ensures "attempts_made" in BuildDeadLetter(m, "", now)
  {
  }

  /***** Answers that are not retried *****/

  /** No POST of the run is answered by a RetryableDispatchError. */
  ghost predicate NeverRetryable(log: seq<Event>) {
    forall i :: 0 <= i < |log| && log[i].Post? ==> !AttemptDelivery(log[i].reply).Retryable?
  }

  /** Every POST of the run is answered 430 to 499 or below 200, and the configuration is found. */
  ghost predicate Refused(log: seq<Event>) {
    && (forall i :: 0 <= i < |log| && log[i].Post? ==> log[i].reply.Status? && (430 <= log[i].reply.code <= 499 || log[i].reply.code < 200))
    && (forall i :: 0 <= i < |log| && log[i].Resolve? ==> !log[i].resolution.NotConfigured?)
  }

  predicate Unposted(s: State, tag: nat) {
    Delivery(0, tag) in s.handling && (s.handling[Delivery(0, tag)].pc.Started? || s.handling[Delivery(0, tag)].pc.Resolved?)
  }

  /** The deliveries whose POST is still to come. */
  function ToPost(s: State): nat {
    One(Unposted(s, 1)) + One(Unposted(s, 2)) + One(Unposted(s, 3)) + One(Unposted(s, 4))
  }

  /** One message, and at most one POST for each of its deliveries. */
  ghost predicate Single(s: State) {
    && |s.queue| == 1 && s.posts + ToPost(s) <= s.queue[0].deliveries
    && forall d | d in s.handling :: !(s.handling[d].pc.Answered? && s.handling[d].pc.outcome.Retryable?)
  }

  /** Only handler `d` changes. */
  lemma ToPostMoves(s: State, s': State, d: Delivery)
    requires forall e: Delivery | e != d :: (e in s'.handling <==> e in s.handling) && (e in s.handling ==> s'.handling[e] == s.handling[e])
    requires d.msg == 0 && 1 <= d.tag <= 4
    ensures ToPost(s') - ToPost(s) == One(Unposted(s', d.tag)) - One(Unposted(s, d.tag))
  {
    assert forall tag: nat | tag != d.tag :: Unposted(s', tag) == Unposted(s, tag);
    hide Unposted;
  }

  lemma TakeKeepsSingle(s: State, d: Delivery)
    requires Inv(s) && Single(s)
    ensures Single(Step(s, Take(d)))
  {
    var s' := Step(s, Take(d));
    if Waiting(s.queue, d.msg) && d.tag == s.queue[d.msg].deliveries + 1 {
      assert SoundMessage(s.queue[0]);
      ToPostMoves(s, s', d);
      hide ToPost;
    }
  }

  lemma PostKeepsSingle(s: State, d: Delivery, reply: Reply)
    requires Inv(s) && Single(s) && d in s.handling && !AttemptDelivery(reply).Retryable?
    ensures Single(Step(s, Post(d, reply)))
  {
    assert HandlingOk(s, d);
    assert SoundMessage(s.queue[0]);
    ToPostMoves(s, Step(s, Post(d, reply)), d);
    hide ToPost, AttemptDelivery, Inv;
  }

  lemma ResolveKeepsSingle(s: State, d: Delivery, r: Resolution)
    requires Inv(s) && Single(s) && d in s.handling
    ensures Single(Step(s, Resolve(d, r)))
  {
    assert HandlingOk(s, d);
    assert SoundMessage(s.queue[0]);
    ToPostMoves(s, Step(s, Resolve(d, r)), d);
    hide ToPost, Inv;
  }

  lemma OthersKeepSingle(s: State, e: Event)
    requires Inv(s) && Single(s) && (e.Act? || e.AckIt? || e.Raise? || e.Crash?) && e.d in s.handling
    ensures Single(Step(s, e))
  {
    assert HandlingOk(s, e.d);
    assert SoundMessage(s.queue[0]);
    ToPostMoves(s, Step(s, e), e.d);
    hide ToPost, Inv, Attempt, BuildRetryMessage, BuildDeadLetter, ShouldRetry;
  }

  lemma LoseKeepsSingle(s: State, d: Delivery)
    requires Single(s)
    ensures Single(Step(s, Lose(d)))
  {
  }

  lemma StepKeepsSingle(s: State, e: Event)
    requires Inv(s) && Single(s) && (e.Post? ==> !AttemptDelivery(e.reply).Retryable?)
    ensures Single(Step(s, e))
  {
    hide Inv, Single, Handle, AttemptDelivery;
    match e
    case Take(d) => TakeKeepsSingle(s, d);
    case Lose(d) => LoseKeepsSingle(s, d);
    case Post(d, reply) => if d in s.handling { PostKeepsSingle(s, d, reply); }
    case Resolve(d, r) => if d in s.handling { ResolveKeepsSingle(s, d, r); }
    case _ => if e.d in s.handling { OthersKeepSingle(s, e); }
  }

  lemma {:induction false} RunKeepsSingle(p: Payload, states: seq<State>, log: seq<Event>, n: nat)
    requires IsRun(p, states, log) && NeverRetryable(log) && n <= |log|
    ensures Single(states[n])
  {
    if n > 0 {
      RunKeepsSingle(p, states, log, n - 1);
      RunKeeps(p, states, log, n - 1);
      StepKeepsSingle(states[n - 1], log[n - 1]);
      hide Single, Step, Inv;
      assert states[n - 1 + 1] == Step(states[n - 1], log[n - 1]);
    }
  }

  /** Nothing has become of the event. */
  ghost predicate Unreported(s: State) {
    && s.dead == [] && s.delivered == 0 && (forall i :: 0 <= i < |s.queue| ==> !s.queue[i].place.Acked?)
    && forall d | d in s.handling :: !s.handling[d].pc.Closing? && (s.handling[d].pc.Answered? ==> s.handling[d].pc.outcome.Unhandled?)
  }

  lemma StepKeepsUnreported(s: State, e: Event)
    requires Unreported(s) && (e.Post? ==> AttemptDelivery(e.reply).Unhandled?) && (e.Resolve? ==> !e.resolution.NotConfigured?)
    ensures Unreported(Step(s, e))
  {
    hide Attempt, BuildRetryMessage, BuildDeadLetter, AttemptDelivery, ShouldRetry, Ack, Publish;
  }

  lemma {:induction false} RunKeepsUnreported(p: Payload, states: seq<State>, log: seq<Event>, n: nat)
    requires IsRun(p, states, log) && Refused(log) && n <= |log|
    ensures Unreported(states[n])
  {
    if n > 0 {
      RunKeepsUnreported(p, states, log, n - 1);
      StepKeepsUnreported(states[n - 1], log[n - 1]);
      hide Unreported, Step;
      assert states[n - 1 + 1] == Step(states[n - 1], log[n - 1]);
    }
  }

  /** Without a retryable answer there is one message and at most one POST for each of its four
      deliveries, whatever crashes.  If the answers are 430 to 499 or below 200, which delivery.py leaves to
      raise_for_status, the event is neither delivered nor dead-lettered by the dispatcher:
      all that can become of it is that the broker drops it. */
  lemma RefusalsAreLost(p: Payload, states: seq<State>, log: seq<Event>)
    requires IsRun(p, states, log) && NeverRetryable(log)
    ensures |states[|log|].queue| == 1 && states[|log|].posts <= states[|log|].queue[0].deliveries <= 4
    ensures Refused(log) ==> states[|log|].dead == [] && states[|log|].delivered == 0 && !states[|log|].queue[0].place.Acked?
  {
    RunKeepsSingle(p, states, log, |log|);
    RunKeeps(p, states, log, |log|);
    assert SoundMessage(states[|log|].queue[0]);
    if Refused(log) {
      RunKeepsUnreported(p, states, log, |log|);
    }
  }
}
