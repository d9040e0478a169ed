/** Nested retries end.  Every message and every running handler holds a budget, and an
    event can only spend it: read in one tariff it counts POSTs, in the other events. */
module DispatcherBounds {
  import opened Broker
  import opened Retry
  import opened Dispatcher

  datatype Tariff = Posts | Events

  /** What one delivery can spend itself. */
  function Unit(t: Tariff): nat { if t.Posts? then 1 else 6 }

  /** What a handler can still spend. */
  function PcCost(t: Tariff, pc: Pc): nat {
    match t
    case Posts => if pc.Started? || pc.Resolved? then 1 else 0
    case Events => match pc case Started => 4 case Resolved => 3 case Answered(_) => 2 case Closing => 1
  }

  /** What the retry published by a delivery of this attempt can spend. */
  function Child(t: Tariff, attempt: int): nat
    decreases if attempt < MAX_ATTEMPTS then MAX_ATTEMPTS - attempt else 0, 0
  {
    if 0 <= attempt && ShouldRetry(attempt) then Fresh(t, attempt + 1) else 0
  }

  /** The budget of a message that was just published: four deliveries. */
  function Fresh(t: Tariff, attempt: int): nat
    decreases if attempt < MAX_ATTEMPTS then MAX_ATTEMPTS - attempt else 0, 1
  {
    4 * (Unit(t) + Child(t, attempt))
  }

  /** `n` deliveries of cost `c`, for at most four. */
  function Times(n: int, c: nat): nat {
    if n <= 0 then 0 else if n == 1 then c else if n == 2 then 2 * c else if n == 3 then 3 * c else 4 * c
  }

  function HandlerBudget(t: Tariff, s: State, d: Delivery): nat {
    if d in s.handling then
      PcCost(t, s.handling[d].pc) + if s.handling[d].pc.Closing? then 0 else Child(t, Attempt(s.handling[d].payload))
    else 0
  }

  /** The deliveries still to come, and the return that would bring them. */
  function QueueBudget(t: Tariff, m: Message<Payload>): nat {
    match m.place
    case Ready => Times(4 - m.deliveries, Unit(t) + Child(t, Attempt(m.body)))
    case Held => Times(4 - m.deliveries, Unit(t) + Child(t, Attempt(m.body))) + if t.Events? then 1 else 0
    case _ => 0
  }

  function Budget(t: Tariff, s: State, i: nat): nat
    requires i < |s.queue|
  {
    QueueBudget(t, s.queue[i]) + Handlers(t, s, i)
  }

  /** A message has at most four deliveries, and so at most four handlers. */
  function Handlers(t: Tariff, s: State, i: nat): nat {
    HandlerBudget(t, s, Delivery(i, 1)) + HandlerBudget(t, s, Delivery(i, 2))
    + HandlerBudget(t, s, Delivery(i, 3)) + HandlerBudget(t, s, Delivery(i, 4))
  }

  function Total(t: Tariff, s: State, n: nat): nat
    requires n <= |s.queue|
  {
    if n == 0 then 0 else Total(t, s, n - 1) + Budget(t, s, n - 1)
  }

  /** What has been spent so far. */
  function Spent(t: Tariff, s: State): nat { if t.Posts? then s.posts else 0 }

  lemma {:induction false} TotalMoves(t: Tariff, s: State, s': State, i: nat, n: nat)
    requires i < n <= |s.queue| && n <= |s'.queue|
    requires forall k: nat | k < n && k != i :: Budget(t, s', k) == Budget(t, s, k)
    ensures Total(t, s', n) - Total(t, s, n) == Budget(t, s', i) - Budget(t, s, i)
  {
    if i == n - 1 {
      TotalStays(t, s, s', n - 1);
    } else {
      TotalMoves(t, s, s', i, n - 1);
    }
  }

  lemma {:induction false} TotalStays(t: Tariff, s: State, s': State, n: nat)
    requires n <= |s.queue| && n <= |s'.queue|
    requires forall k: nat | k < n :: Budget(t, s', k) == Budget(t, s, k)
    ensures Total(t, s', n) == Total(t, s, n)
  {
    if n > 0 { TotalStays(t, s, s', n - 1); }
  }

  /** An event touches one message, and publishes at most one. */
  ghost predicate Local(s: State, s': State, i: nat) {
    && |s.queue| <= |s'.queue| <= |s.queue| + 1
    && (forall k: nat | k < |s.queue| && k != i :: s'.queue[k] == s.queue[k])
    && (forall d: Delivery | d.msg != i :: (d in s'.handling <==> d in s.handling) && (d in s.handling ==> s'.handling[d] == s.handling[d]))
  }

  lemma StepIsLocal(s: State, e: Event)
    requires Inv(s)
    ensures Local(s, Step(s, e), e.d.msg)
  {
    if e.d in s.handling { assert HandlingOk(s, e.d); }
  }

  /** The books of one event: what it spends is at least what the touched message loses. */
  ghost predicate Pays(t: Tariff, s: State, s': State, i: nat)
    requires i < |s.queue| <= |s'.queue|
  {
    var grown := if |s'.queue| > |s.queue| then Budget(t, s', |s.queue|) else 0;
    var before, after := Spent(t, s) + Budget(t, s, i), Spent(t, s') + Budget(t, s', i) + grown;
    if t.Posts? then after <= before else s' == s || after < before
  }

  lemma HandlersMove(t: Tariff, s: State, s': State, d: Delivery)
    requires 1 <= d.tag <= 4
    requires forall e: Delivery | e != d :: HandlerBudget(t, s', e) == HandlerBudget(t, s, e)
    ensures Handlers(t, s', d.msg) - Handlers(t, s, d.msg) == HandlerBudget(t, s', d) - HandlerBudget(t, s, d)
  {
    hide HandlerBudget;
  }

  /** So only the budgets of one handler and of one queue entry need comparing. */
  lemma PaysIf(t: Tariff, s: State, s': State, d: Delivery)
    requires d.msg < |s.queue| == |s'.queue| && 1 <= d.tag <= 4
    requires forall e: Delivery | e != d :: HandlerBudget(t, s', e) == HandlerBudget(t, s, e)
    requires var before := Spent(t, s) + QueueBudget(t, s.queue[d.msg]) + HandlerBudget(t, s, d);
             var after := Spent(t, s') + QueueBudget(t, s'.queue[d.msg]) + HandlerBudget(t, s', d);
             if t.Posts? then after <= before else s' == s || after < before
    ensures Pays(t, s, s', d.msg)
  {
    HandlersMove(t, s, s', d);
    hide HandlerBudget, QueueBudget, Handlers, Spent;
  }

  lemma TakePays(t: Tariff, s: State, d: Delivery)
    requires Inv(s) && d.msg < |s.queue|
    ensures Pays(t, s, Step(s, Take(d)), d.msg)
  {
    assert SoundMessage(s.queue[d.msg]);
    hide Child;
    if Step(s, Take(d)) != s {
      PaysIf(t, s, Step(s, Take(d)), d);
    }
  }

  lemma LosePays(t: Tariff, s: State, d: Delivery)
    requires Inv(s) && d.msg < |s.queue|
    ensures Pays(t, s, Step(s, Lose(d)), d.msg)
  {
    assert SoundMessage(s.queue[d.msg]);
    hide Child;
    if Step(s, Lose(d)) != s {
      PaysIf(t, s, Step(s, Lose(d)), d);
    }
  }

  lemma TagsAreSmall(s: State, d: Delivery)
    requires Inv(s) && d in s.handling
    ensures d.msg < |s.queue| && 1 <= d.tag <= 4 && SoundMessage(s.queue[d.msg])
    ensures s.handling[d].payload == s.queue[d.msg].body
  {
    assert HandlingOk(s, d);
    assert SoundMessage(s.queue[d.msg]);
  }

  /** Steps inside the handler. */
  lemma ProgressPays(t: Tariff, s: State, e: Event)
    requires Inv(s) && e.d in s.handling && (e.Resolve? || e.Post?)
    ensures e.d.msg < |s.queue| && Pays(t, s, Step(s, e), e.d.msg)
  {
    TagsAreSmall(s, e.d);
    hide Child, QueueBudget, Inv, AttemptDelivery;
    PaysIf(t, s, Step(s, e), e.d);
  }

  lemma LeavingPays(t: Tariff, s: State, e: Event)
    requires Inv(s) && e.d in s.handling && (e.AckIt? || e.Raise? || e.Crash?)
    ensures e.d.msg < |s.queue| && Pays(t, s, Step(s, e), e.d.msg)
  {
    TagsAreSmall(s, e.d);
    hide Child, Inv;
    PaysIf(t, s, Step(s, e), e.d);
  }

  /** The retry costs exactly what was set aside for it. */
  lemma ChildIsFresh(t: Tariff, s: State, p: Payload)
    requires Inv(s) && 0 <= Attempt(p) && ShouldRetry(Attempt(p))
    ensures var m := Message(BuildRetryMessage(p, Attempt(p)), 0, 0, Ready);
      QueueBudget(t, m) == Child(t, Attempt(p))
    ensures Handlers(t, s, |s.queue|) == 0
  {
    var p' := BuildRetryMessage(p, Attempt(p));
    assert Attempt(p') == Attempt(p) + 1;
    FreshMessage(t, p');
    forall tag: nat ensures Delivery(|s.queue|, tag) !in s.handling {
      if Delivery(|s.queue|, tag) in s.handling {
        TagsAreSmall(s, Delivery(|s.queue|, tag));
        assert false;
      }
    }
    NoHandlers(t, s, |s.queue|);
  }

  lemma ActPays(t: Tariff, s: State, d: Delivery, now: int)
    requires Inv(s) && d in s.handling
    ensures d.msg < |s.queue| && Pays(t, s, Step(s, Act(d, now)), d.msg)
  {
    TagsAreSmall(s, d);
    var s' := Step(s, Act(d, now));
    if |s'.queue| > |s.queue| {
      ChildIsFresh(t, s, s.handling[d].payload);
      hide Child, QueueBudget, Inv, BuildRetryMessage, Attempt;
      HandlersMove(t, s, s', d);
      assert Handlers(t, s', |s.queue|) == Handlers(t, s, |s.queue|);
    } else {
      hide Child, QueueBudget, Inv, BuildDeadLetter, Attempt;
      PaysIf(t, s, s', d);
    }
  }

  lemma EventPays(t: Tariff, s: State, e: Event)
    requires Inv(s) && Step(s, e) != s
    ensures e.d.msg < |s.queue| <= |Step(s, e).queue| && Pays(t, s, Step(s, e), e.d.msg)
  {
    StepIsLocal(s, e);
    if e.Take? {
      TakePays(t, s, e.d);
    } else if e.Lose? {
      assert e.d.msg < |s.queue|;
      LosePays(t, s, e.d);
    } else {
      hide Pays;
      if e.Act? {
        ActPays(t, s, e.d, e.now);
      } else if e.Resolve? || e.Post? {
        ProgressPays(t, s, e);
      } else {
        LeavingPays(t, s, e);
      }
    }
  }

  lemma OthersKeepTheirBudget(t: Tariff, s: State, s': State, i: nat, k: nat)
    requires Local(s, s', i) && k < |s.queue| && k != i
    ensures Budget(t, s', k) == Budget(t, s, k)
  {
    hide QueueBudget;
    forall tag: nat ensures HandlerBudget(t, s', Delivery(k, tag)) == HandlerBudget(t, s, Delivery(k, tag)) {
      assert Delivery(k, tag).msg != i;
    }
  }

  function Worth(t: Tariff, s: State): nat { Spent(t, s) + Total(t, s, |s.queue|) }

  lemma StepPays(t: Tariff, s: State, e: Event)
    requires Inv(s)
    ensures Worth(t, Step(s, e)) <= Worth(t, s)
    ensures t.Events? && Step(s, e) != s ==> Worth(t, Step(s, e)) < Worth(t, s)
  {
    var s' := Step(s, e);
    hide Step, Inv, Budget, Spent;
    if s' != s {
      EventPays(t, s, e);
      StepIsLocal(s, e);
      forall k: nat | k < |s.queue| && k != e.d.msg ensures Budget(t, s', k) == Budget(t, s, k) {
        OthersKeepTheirBudget(t, s, s', e.d.msg, k);
      }
      TotalMoves(t, s, s', e.d.msg, |s.queue|);
    }
  }

  lemma FreshMessage(t: Tariff, p: Payload)
    ensures QueueBudget(t, Message(p, 0, 0, Ready)) == Fresh(t, Attempt(p))
  {
    hide Child, Attempt;
  }

  lemma NoHandlers(t: Tariff, s: State, i: nat)
    requires forall tag :: Delivery(i, tag) !in s.handling
    ensures Handlers(t, s, i) == 0
  {
    hide Child, Attempt;
  }

  lemma OneMessage(t: Tariff, s: State)
    requires |s.queue| == 1
    ensures Total(t, s, 1) == Budget(t, s, 0)
  {
    hide Budget;
  }

  lemma StartWorth(t: Tariff, p: Payload)
    ensures Worth(t, Start(p)) == Fresh(t, Attempt(p))
  {
    hide Fresh, Attempt, QueueBudget, Handlers, Total;
    FreshMessage(t, p);
    NoHandlers(t, Start(p), 0);
    OneMessage(t, Start(p));
  }

  /** The events of a run that were enabled and did something. */
  ghost function Effective(states: seq<State>, n: nat): nat
    requires n < |states|
  {
    if n == 0 then 0 else Effective(states, n - 1) + if states[n] != states[n - 1] then 1 else 0
  }

  lemma {:induction false} RunPays(t: Tariff, p: Payload, states: seq<State>, log: seq<Event>, n: nat)
    requires IsRun(p, states, log) && n <= |log|
    ensures Worth(t, states[n]) + (if t.Events? then Effective(states, n) else 0) <= Fresh(t, Attempt(p))
  {
    hide Fresh, Worth, Step, Inv, Start, Attempt;
    if n == 0 {
      StartWorth(t, p);
    } else {
      RunPays(t, p, states, log, n - 1);
      RunKeeps(p, states, log, n - 1);
      assert states[n - 1 + 1] == Step(states[n - 1], log[n - 1]);
      StepPays(t, states[n - 1], log[n - 1]);
    }
  }

  lemma FreshBudgets(attempt: int)
    ensures Fresh(Posts, attempt) ==
            if attempt == 1 then 20 else if attempt == 0 then 84 else 4
    ensures Fresh(Events, attempt) ==
            if attempt == 1 then 120 else if attempt == 0 then 504 else 24
  {
    assert attempt == 0 ==> Child(Posts, 1) == Fresh(Posts, 2) && Child(Events, 1) == Fresh(Events, 2);
    assert attempt == 0 ==> Child(Posts, 0) == Fresh(Posts, 1) && Child(Events, 0) == Fresh(Events, 1);
  }

  /** However often workers crash, connections drop and endpoints fail, one event leads to
      at most 4 + 16 + 64 POSTs, and after 504 events of its run nothing more can happen; to
      less if its attempt says that it is a retry already. */
  lemma DispatchTerminates(p: Payload, states: seq<State>, log: seq<Event>)
    requires IsRun(p, states, log)
    ensures states[|log|].posts <= (if Attempt(p) == 0 then 84 else if Attempt(p) == 1 then 20 else 4)
    ensures Effective(states, |log|) <= (if Attempt(p) == 0 then 504 else if Attempt(p) == 1 then 120 else 24)
  {
    RunPays(Posts, p, states, log, |log|);
    RunPays(Events, p, states, log, |log|);
    FreshBudgets(Attempt(p));
    hide Fresh, Total, Attempt;
  }
}
