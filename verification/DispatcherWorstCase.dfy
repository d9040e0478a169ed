/** The bound on POSTs is reached: a schedule under which one event costs all 84. */
module DispatcherWorstCase {
  import opened Broker
  import opened Retry
  import opened Dispatcher
  import opened DispatcherBounds
  import opened DispatcherChain
  import opened DispatcherRuns

  function Exec(s: State, log: seq<Event>): State
    decreases |log|
  {
    if log == [] then s else Exec(Step(s, log[0]), log[1..])
  }

  lemma {:induction false} ExecOfSum(s: State, a: seq<Event>, b: seq<Event>)
    ensures Exec(s, a + b) == Exec(Exec(s, a), b)
    decreases |a|
  {
    if a == [] {
      assert a + b == b;
    } else {
      assert (a + b)[1..] == a[1..] + b;
      ExecOfSum(Step(s, a[0]), a[1..], b);
    }
  }

  lemma ExecFrom(s: State, log: seq<Event>, k: nat)
    requires k <= |log|
    ensures Exec(s, log[k..]) == if k == |log| then s else Exec(Step(s, log[k]), log[k + 1..])
  {
    if k < |log| { assert log[k..][1..] == log[k + 1..]; }
  }

  /** All of `log`'s states, so that Exec speaks of runs. */
  lemma {:induction false} ExecIsRun(s: State, log: seq<Event>) returns (states: seq<State>)
    ensures |states| == |log| + 1 && states[0] == s && states[|log|] == Exec(s, log)
    ensures forall i {:trigger log[i]} :: 0 <= i < |log| ==> states[i + 1] == Step(states[i], log[i])
    decreases |log|
  {
    hide Step;
    if log == [] {
      states := [s];
    } else {
      var rest := ExecIsRun(Step(s, log[0]), log[1..]);
      states := [s] + rest;
      forall i {:trigger log[i]} | 0 <= i < |log| ensures states[i + 1] == Step(states[i], log[i]) {
        if i > 0 { assert log[i] == log[1..][i - 1]; }
      }
    }
  }

  /** Every handler belongs to a message, so a new message has none. */
  ghost predicate Tidy(s: State) {
    forall d | d in s.handling :: d.msg < |s.queue|
  }

  /** What happens around message `i` leaves every other message and handler as it was. */
  ghost predicate Around(s: State, s': State, i: nat) {
    && |s.queue| <= |s'.queue| && s'.handling == s.handling
    && forall k: nat | k < |s.queue| && k != i :: s'.queue[k] == s.queue[k]
  }

  function Failing(d: Delivery): seq<Event> {
    [Take(d), Resolve(d, Configured), Post(d, Status(500)), Act(d, 0), Crash(d), Lose(d)]
  }

  lemma ExecOfFailing(s: State, d: Delivery)
    ensures Exec(s, Failing(d)) ==
            Step(Step(Step(Step(Step(Step(s, Take(d)), Resolve(d, Configured)), Post(d, Status(500))), Act(d, 0)), Crash(d)), Lose(d))
  {
    hide Step, Exec;
    var f := Failing(d);
    assert f[0..] == f;
    ExecFrom(s, f, 0);
    var s1 := Step(s, Take(d));
    ExecFrom(s1, f, 1);
    var s2 := Step(s1, Resolve(d, Configured));
    ExecFrom(s2, f, 2);
    var s3 := Step(s2, Post(d, Status(500)));
    ExecFrom(s3, f, 3);
    var s4 := Step(s3, Act(d, 0));
    ExecFrom(s4, f, 4);
    var s5 := Step(s4, Crash(d));
    ExecFrom(s5, f, 5);
    ExecFrom(Step(s5, Lose(d)), f, 6);
  }

  /** After the retry, or the dead letter, is published. */
  lemma WorkerDies(s: State, i: nat, p: Payload, n: nat)
    requires i < |s.queue| && n <= DELIVERY_LIMIT && s.queue[i] == Message(p, n, n + 1, Held)
    requires Delivery(i, n + 1) in s.handling && s.handling[Delivery(i, n + 1)] == Handling(p, Answered(Retryable)) && 0 <= Attempt(p)
    ensures var d := Delivery(i, n + 1);
            var s' := Step(Step(Step(s, Act(d, 0)), Crash(d)), Lose(d));
            var q := if ShouldRetry(Attempt(p)) then Publish(s.queue, BuildRetryMessage(p, Attempt(p))) else s.queue;
            && s'.posts == s.posts && s'.handling == s.handling - {d}
            && s'.queue == q[i := Message(p, n + 1, n + 1, if n == DELIVERY_LIMIT then Dead else Ready)]
  {
    hide BuildRetryMessage, BuildDeadLetter, Attempt, ShouldRetry;
    var d := Delivery(i, n + 1);
    var s1 := Step(s, Act(d, 0));
    assert s1.handling == s.handling[d := Handling(p, Closing)];
    var s2 := Step(s1, Crash(d));
    assert s2.handling == s.handling - {d} && s2.queue == s1.queue;
  }

  /** The endpoint answers 500; the worker dies between publishing the retry and the ack. */
  lemma PostFails(s: State, i: nat, p: Payload, n: nat)
    requires i < |s.queue| && s.queue[i] == Message(p, n, n, Ready) && Delivery(i, n + 1) !in s.handling
    ensures var d := Delivery(i, n + 1);
            Step(Step(Step(s, Take(d)), Resolve(d, Configured)), Post(d, Status(500))) ==
            s.(queue := s.queue[i := Message(p, n, n + 1, Held)], handling := s.handling[d := Handling(p, Answered(Retryable))], posts := s.posts + 1)
  {
    var d := Delivery(i, n + 1);
    var s1 := Step(s, Take(d));
    assert s1 == s.(queue := s.queue[i := Message(p, n, n + 1, Held)], handling := s.handling[d := Handling(p, Started)]);
    var s2 := Step(s1, Resolve(d, Configured));
    assert s2.handling == s.handling[d := Handling(p, Resolved)];
    assert Step(s2, Post(d, Status(500))).handling == s.handling[d := Handling(p, Answered(Retryable))];
  }

  lemma FailOnce(s: State, i: nat, p: Payload, n: nat)
    requires i < |s.queue| && n <= DELIVERY_LIMIT && s.queue[i] == Message(p, n, n, Ready)
    requires Delivery(i, n + 1) !in s.handling && Tidy(s) && 0 <= Attempt(p)
    ensures var s' := Exec(s, Failing(Delivery(i, n + 1)));
            && s'.posts == s.posts + 1 && Around(s, s', i) && Tidy(s')
            && s'.queue[i] == Message(p, n + 1, n + 1, if n == DELIVERY_LIMIT then Dead else Ready)
            && (if ShouldRetry(Attempt(p)) then
                  |s'.queue| == |s.queue| + 1 && s'.queue[|s.queue|] == Message(BuildRetryMessage(p, Attempt(p)), 0, 0, Ready)
                else |s'.queue| == |s.queue|)
  {
    hide Exec, Step, BuildRetryMessage, Attempt, ShouldRetry;
    var d := Delivery(i, n + 1);
    ExecOfFailing(s, d);
    PostFails(s, i, p, n);
    var s3 := s.(queue := s.queue[i := Message(p, n, n + 1, Held)], handling := s.handling[d := Handling(p, Answered(Retryable))], posts := s.posts + 1);
    WorkerDies(s3, i, p, n);
    assert s3.handling - {d} == s.handling;
  }

  /** Four such deliveries, and as much again for every retry each of them published. */
  lemma {:induction false} Drain(s: State, i: nat, p: Payload, n: nat) returns (log: seq<Event>)
    requires i < |s.queue| && n <= DELIVERY_LIMIT && s.queue[i] == Message(p, n, n, Ready)
    requires Tidy(s) && (forall tag :: Delivery(i, tag) !in s.handling) && 0 <= Attempt(p)
    ensures var s' := Exec(s, log);
            Around(s, s', i) && Tidy(s') && s'.posts == s.posts + (4 - n) * (1 + Child(Posts, Attempt(p)))
    decreases if Attempt(p) < MAX_ATTEMPTS then MAX_ATTEMPTS - Attempt(p) else 0, 4 - n
  {
    hide Step, Child;
    FailOnce(s, i, p, n);
    log := Failing(Delivery(i, n + 1));
    var s1 := Exec(s, log);
    hide Exec, Attempt, BuildRetryMessage;
    if ShouldRetry(Attempt(p)) {
      var retry := BuildRetryMessage(p, Attempt(p));
      ChildOf(p);
      var inner := Drain(s1, |s.queue|, retry, 0);
      ExecOfSum(s, log, inner);
      log := log + inner;
    } else {
      ChildOf(p);
    }
    var s2 := Exec(s, log);
    if n < DELIVERY_LIMIT {
      var rest := Drain(s2, i, p, n + 1);
      ExecOfSum(s, log, rest);
      log := log + rest;
    }
  }

  lemma ChildOf(p: Payload)
    ensures Attempt(BuildRetryMessage(p, Attempt(p))) == Attempt(p) + 1
    ensures Child(Posts, Attempt(p)) == if 0 <= Attempt(p) && ShouldRetry(Attempt(p)) then 4 * (1 + Child(Posts, Attempt(p) + 1)) else 0
  {
  }

  lemma TheBoundIsReached(p: Payload) returns (states: seq<State>, log: seq<Event>)
    requires Attempt(p) == 0
    ensures IsRun(p, states, log) && states[|log|].posts == 84
  {
    hide Attempt, Step, Exec;
    log := Drain(Start(p), 0, p, 0);
    FreshBudgets(0);
    states := ExecIsRun(Start(p), log);
  }

  /***** An event that is refused *****/

  /** The endpoint answers 450, and the message goes back. */
  function Refusing(d: Delivery): seq<Event> {
    [Take(d), Resolve(d, Configured), Post(d, Status(450)), Raise(d)]
  }

  lemma ExecOfRefusing(s: State, d: Delivery)
    ensures Exec(s, Refusing(d)) == Step(Step(Step(Step(s, Take(d)), Resolve(d, Configured)), Post(d, Status(450))), Raise(d))
  {
    hide Step, Exec;
    var r := Refusing(d);
    assert r[0..] == r;
    ExecFrom(s, r, 0);
    var s1 := Step(s, Take(d));
    ExecFrom(s1, r, 1);
    var s2 := Step(s1, Resolve(d, Configured));
    ExecFrom(s2, r, 2);
    var s3 := Step(s2, Post(d, Status(450)));
    ExecFrom(s3, r, 3);
    ExecFrom(Step(s3, Raise(d)), r, 4);
  }

  lemma RefuseOnce(p: Payload, n: nat, s: State)
    requires n <= DELIVERY_LIMIT && s == State([Message(p, n, n, Ready)], map[], n, 0, [])
    ensures Exec(s, Refusing(Delivery(0, n + 1))) ==
            State([Message(p, n + 1, n + 1, if n == DELIVERY_LIMIT then Dead else Ready)], map[], n + 1, 0, [])
  {
    var d := Delivery(0, n + 1);
    ExecOfRefusing(s, d);
    hide Exec;
    var s1 := Step(s, Take(d));
    assert s1 == State([Message(p, n, n + 1, Held)], map[d := Handling(p, Started)], n, 0, []);
    var s2 := Step(s1, Resolve(d, Configured));
    assert s2 == s1.(handling := map[d := Handling(p, Resolved)]);
    var s3 := Step(s2, Post(d, Status(450)));
    assert s3 == s2.(handling := map[d := Handling(p, Answered(Unhandled))], posts := n + 1);
    assert map[d := Handling(p, Answered(Unhandled))] - {d} == map[];
  }

  lemma {:induction false} RefuseOften(p: Payload, n: nat) returns (log: seq<Event>)
    requires n <= 4
    ensures Exec(Start(p), log) == State([Message(p, n, n, if n == 4 then Dead else Ready)], map[], n, 0, [])
    ensures forall i :: 0 <= i < |log| ==> exists d :: log[i] in Refusing(d)
  {
    hide Step;
    log := [];
    if n > 0 {
      var before := RefuseOften(p, n - 1);
      var d := Delivery(0, n);
      ExecOfSum(Start(p), before, Refusing(d));
      RefuseOnce(p, n - 1, Exec(Start(p), before));
      hide Exec;
      log := before + Refusing(d);
      forall i | 0 <= i < |log| ensures exists e :: log[i] in Refusing(e) {
        if i >= |before| { assert log[i] in Refusing(d); }
      }
    }
  }

  /** Without any crash a refused event is posted four times and then dropped by the broker. */
  lemma RefusedEventsAreDropped(p: Payload) returns (states: seq<State>, log: seq<Event>)
    ensures IsRun(p, states, log) && Refused(log) && CrashFree(log)
    ensures var s := states[|log|]; |s.queue| == 1 && s.queue[0].place.Dead? && s.posts == 4 && s.dead == [] && s.delivered == 0
  {
    hide Step, Exec;
    log := RefuseOften(p, 4);
    states := ExecIsRun(Start(p), log);
  }
}
