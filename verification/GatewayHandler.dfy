/** gateway/handlers/file.py: get_context with its recursive cache fill, and the repository
    methods it calls, on the shared Redis.

    Before each call to Redis or to the auth service other requests may do anything they can
    and up to `pause` seconds may pass, and the call may fail. */
module GatewayHandler {
  import opened TtlCache
  import opened RateLimit
  import opened Wrappers

  datatype Answer =
    | Context(developer: Option<string>, plan: Option<string>)
    | Unauthorized | TooManyRequests | LookupFailed | RedisFailed | RecursionError

  /** What another request, another gateway or time itself can do. */
  predicate NotBy(e: RateLimit.Event, caller: nat) {
    match e
    case Check(c, _) => c != caller
    case Cached(c) => ByOthers(c, caller)
  }

  ghost predicate OthersOnly(log: seq<RateLimit.Event>, from: nat, to: nat, caller: nat) {
    forall i :: from <= i < to && i < |log| ==> NotBy(log[i], caller)
  }

  /** The charges of one request, and how many of them were admitted. */
  datatype Tally = Tally(charged: nat, admitted: nat)

  function TallyOf(charges: seq<Charge>, caller: nat): Tally {
    if charges == [] then Tally(0, 0)
    else Plus(TallyOf(charges[..|charges| - 1], caller), charges[|charges| - 1], caller)
  }

  function Plus(t: Tally, c: Charge, caller: nat): Tally {
    if c.caller != caller then t else Tally(t.charged + 1, t.admitted + if c.admitted then 1 else 0)
  }

  lemma OneMore(charges: seq<Charge>, c: Charge, caller: nat)
    ensures TallyOf(charges + [c], caller) == Plus(TallyOf(charges, caller), c, caller)
  {
    assert (charges + [c])[..|charges|] == charges;
  }

  lemma StepLasts(g: Gateway, e: RateLimit.Event, b: real)
    requires b <= g.cache.now + RECORD_TTL
    ensures var c, c' := g.cache, RateLimit.Step(g, e).cache;
            c.now <= c'.now && (Safe(c, b) ==> Safe(c', b)) && (Lasting(c, b) ==> Lasting(c', b))
  {
    if e.Cached? { StepKeepsLasting(g.cache, e.e, RECORD_TTL, b); }
    hide Safe, Lasting, TtlCache.Step, Window;
  }

  lemma OthersAreElsewhere(g: Gateway, e: RateLimit.Event, caller: nat)
    requires NotBy(e, caller)
    ensures TallyOf(RateLimit.Step(g, e).charges, caller) == TallyOf(g.charges, caller)
    ensures caller in RateLimit.Step(g, e).cache.fills <==> caller in g.cache.fills
    ensures caller in g.cache.fills ==> RateLimit.Step(g, e).cache.fills[caller] == g.cache.fills[caller]
  {
    hide Window;
    if e.Check? {
      var charges := RateLimit.Step(g, e).charges;
      if charges != g.charges {
        OneMore(g.charges, charges[|g.charges|], caller);
      }
      hide TallyOf;
    }
  }

  lemma {:induction false} RecordIsThere(r: KeyRecord, states: seq<Gateway>, log: seq<RateLimit.Event>, n: nat)
    requires RateLimit.IsRun(r, states, log) && n <= |log|
    ensures states[n].cache.history != []
  {
    if n > 0 {
      RecordIsThere(r, states, log, n - 1);
      assert states[n - 1 + 1] == RateLimit.Step(states[n - 1], log[n - 1]);
      hide Window;
    }
  }

  /***** A hit at the first level *****/

  /** get_cache_data and what is made of it. */
  function Read(c: TtlCache.State<KeyRecord>): Answer {
    if Alive(c) then Context(Some(c.slot.value.developer), Some(c.slot.value.plan)) else Context(None, None)
  }

  /** From state `from` to state `to` request `caller` runs through a hit: the script at `k`
      admits it, and others act before and after, each time for at most `pause` seconds. */
  ghost predicate Hit(states: seq<Gateway>, log: seq<RateLimit.Event>, from: nat, to: nat, caller: nat, pause: real, k: nat) {
    && from <= k < to <= |log| && |states| == |log| + 1
    && log[k] == Check(caller, states[from].cache.now) && Script(states[k], caller, Window(states[from].cache.now)).1 == 1
    && states[k].cache.now <= states[from].cache.now + pause && states[to].cache.now <= states[k + 1].cache.now + pause
    && OthersOnly(log, from, k, caller) && OthersOnly(log, k + 1, to, caller)
  }

  /** The cached record is there and does not expire within `t` seconds. */
  ghost predicate KnownFor(g: Gateway, t: real) {
    Alive(g.cache) && (g.cache.slot.expiry.At? ==> g.cache.slot.expiry.time > g.cache.now + t)
  }

  lemma {:induction false} LastingLasts(r: KeyRecord, states: seq<Gateway>, log: seq<RateLimit.Event>, from: nat, n: nat, b: real)
    requires RateLimit.IsRun(r, states, log) && from <= n <= |log|
    requires Lasting(states[from].cache, b) && b <= states[from].cache.now + RECORD_TTL
    ensures Lasting(states[n].cache, b) && states[from].cache.now <= states[n].cache.now
  {
    hide RateLimit.Step, Lasting;
    if from < n {
      LastingLasts(r, states, log, from, n - 1, b);
      assert states[n - 1 + 1] == RateLimit.Step(states[n - 1], log[n - 1]);
      StepLasts(states[n - 1], log[n - 1], b);
    }
  }

  lemma HitKnows(r: KeyRecord, states: seq<Gateway>, log: seq<RateLimit.Event>, from: nat, to: nat, caller: nat, pause: real, k: nat)
    requires RateLimit.IsRun(r, states, log) && Hit(states, log, from, to, caller, pause, k)
    requires KnownFor(states[from], 2.0 * pause) && 0.0 <= 2.0 * pause < RECORD_TTL
    ensures Alive(states[to].cache)
  {
    var g := states[from].cache;
    var b := if g.slot.expiry.At? && g.slot.expiry.time < g.now + RECORD_TTL then g.slot.expiry.time else g.now + RECORD_TTL;
    LastingLasts(r, states, log, from, to, b);
    assert states[k + 1] == RateLimit.Step(states[k], log[k]);
    CheckTakesNoTime(states[k], log[k]);
    hide RateLimit.Step, RateLimit.IsRun, Window, Script;
    LastingIsAlive(states[to].cache, b);
  }

  lemma CheckTakesNoTime(g: Gateway, e: RateLimit.Event)
    requires e.Check?
    ensures RateLimit.Step(g, e).cache == g.cache
  {
    hide Window;
  }

  /** Half of the remaining life passes before the script, half after it. */
  lemma HitForgets(r: KeyRecord, states: seq<Gateway>, log: seq<RateLimit.Event>, caller: nat, pause: real)
    returns (states': seq<Gateway>, log': seq<RateLimit.Event>)
    requires |states| == |log| + 1 && RateLimit.IsRun(r, states, log)
    requires var g := states[|log|];
             && Alive(g.cache) && g.cache.slot.expiry.At? && g.cache.slot.expiry.time <= g.cache.now + 2.0 * pause
             && Script(g, caller, Window(g.cache.now)).1 == 1
    ensures |states'| == |log'| + 1 && RateLimit.IsRun(r, states', log') && log <= log' && states <= states'
    ensures Hit(states', log', |log|, |log'|, caller, pause, |log| + 1) && !Alive(states'[|log'|].cache)
  {
    var g := states[|log|];
    var half := (g.cache.slot.expiry.time - g.cache.now) / 2.0;
    var g1 := g.(cache := g.cache.(now := g.cache.now + half));
    StillAdmitted(g, half, caller, Window(g.cache.now));
    hide Window;
    var w := Window(g.cache.now);
    var g2 := Script(g1, caller, w).0;
    var g3 := g2.(cache := g2.cache.(now := g2.cache.now + half));
    log' := log + [Cached(Pass(half)), Check(caller, g.cache.now), Cached(Pass(half))];
    states' := states + [g1, g2, g3];
    assert RateLimit.Step(g, log'[|log|]) == g1 && RateLimit.Step(g1, log'[|log| + 1]) == g2 && RateLimit.Step(g2, log'[|log| + 2]) == g3;
    assert g2.cache == g1.cache;
    hide RateLimit.Step, Script;
    forall i {:trigger log'[i]} | 0 <= i < |log'| ensures states'[i + 1] == RateLimit.Step(states'[i], log'[i]) {
      if i < |log| { assert log'[i] == log[i]; }
    }
  }

  lemma StillAdmitted(g: Gateway, dt: real, caller: nat, w: int)
    requires 0.0 <= dt && Alive(g.cache) && Script(g, caller, w).1 == 1
    requires g.cache.slot.expiry.At? ==> g.cache.now + dt < g.cache.slot.expiry.time
    ensures Script(g.(cache := g.cache.(now := g.cache.now + dt)), caller, w).1 == 1
  {
  }

  /** Whatever the schedule, a request that finds the record learns its developer. */
  ghost predicate AlwaysKnown(r: KeyRecord, states: seq<Gateway>, log: seq<RateLimit.Event>, caller: nat, pause: real) {
    forall states': seq<Gateway>, log': seq<RateLimit.Event>, k: nat {:trigger Hit(states', log', |log|, |log'|, caller, pause, k)} ::
      |states'| == |log'| + 1 && RateLimit.IsRun(r, states', log') && log <= log' && states <= states' && Hit(states', log', |log|, |log'|, caller, pause, k) ==>
        Read(states'[|log'|].cache).developer.Some?
  }

  /** A request that the script would admit now learns its developer on every schedule if and
      only if the cached record does not expire within the two awaits. */
  lemma DeveloperIsKnown(r: KeyRecord, states: seq<Gateway>, log: seq<RateLimit.Event>, caller: nat, pause: real)
    requires |states| == |log| + 1 && RateLimit.IsRun(r, states, log) && 0.0 <= 2.0 * pause < RECORD_TTL
    requires Script(states[|log|], caller, Window(states[|log|].cache.now)).1 == 1
    ensures AlwaysKnown(r, states, log, caller, pause) <==> KnownFor(states[|log|], 2.0 * pause)
  {
    hide RateLimit.IsRun, Hit, Window;
    var g := states[|log|];
    assert Alive(g.cache);
    if KnownFor(g, 2.0 * pause) {
      forall states': seq<Gateway>, log': seq<RateLimit.Event>, k: nat | |states'| == |log'| + 1 && RateLimit.IsRun(r, states', log') && log <= log' && states <= states'
                                && Hit(states', log', |log|, |log'|, caller, pause, k)
        ensures Read(states'[|log'|].cache).developer.Some?
      {
        HitKnows(r, states', log', |log|, |log'|, caller, pause, k);
      }
    } else {
      var states', log' := HitForgets(r, states, log, caller, pause);
    }
  }

  /** So a request can be admitted and answered without a developer: the record found lives as
      long as one await takes. */
  lemma DeveloperCanBeLost(r: KeyRecord, caller: nat, pause: real) returns (states: seq<Gateway>, log: seq<RateLimit.Event>, from: nat)
    requires r.status != "revoked" && 1 <= r.limit && 0.0 < pause < RECORD_TTL
    ensures |states| == |log| + 1 && RateLimit.IsRun(r, states, log)
    ensures Hit(states, log, from, |log|, caller, pause, from + 1) && Read(states[|log|].cache) == Context(None, None)
  {
    hide RateLimit.IsRun, Prompt, Hit, Window;
    states, log := Nothing(r, 0.0);
    states, log := FillAtOnce(r, states, log, 0.0);
    states, log := More(r, states, log, Cached(Pass(RECORD_TTL - pause)), 0.0);
    from := |log|;
    states, log := HitForgets(r, states, log, caller, pause);
  }

  /** A hit up to its script, and what others do until the record is read. */
  lemma HitFromParts(states0: seq<Gateway>, log0: seq<RateLimit.Event>, states: seq<Gateway>, log: seq<RateLimit.Event>, from: nat, caller: nat, pause: real)
    requires |states0| == |log0| + 1 && |states| == |log| + 1 && states0 <= states && log0 <= log && from < |log0|
    requires var k := |log0| - 1;
             && log0[k] == Check(caller, states0[from].cache.now) && Script(states0[k], caller, Window(states0[from].cache.now)).1 == 1
             && states0[k].cache.now <= states0[from].cache.now + pause && OthersOnly(log0, from, k, caller)
    requires OthersOnly(log, |log0|, |log|, caller) && states[|log|].cache.now <= states0[|log0|].cache.now + pause
    ensures Hit(states, log, from, |log|, caller, pause, |log0| - 1)
  {
    hide Script, Window;
    assert forall i :: 0 <= i < |log0| ==> log[i] == log0[i];
  }

  /** How long the record found is sure to be there. */
  function SoonestExpiry(g: Gateway): real {
    if g.cache.slot.Holding? && g.cache.slot.expiry.At? && g.cache.slot.expiry.time < g.cache.now + RECORD_TTL then g.cache.slot.expiry.time
    else g.cache.now + RECORD_TTL
  }

  lemma KnownLasts(g: Gateway, t: real)
    ensures KnownFor(g, t) ==> Lasting(g.cache, SoonestExpiry(g))
    ensures KnownFor(g, t) && t < RECORD_TTL ==> g.cache.now + t < SoonestExpiry(g)
    ensures Lasting(g.cache, g.cache.now + RECORD_TTL) ==> SoonestExpiry(g) == g.cache.now + RECORD_TTL
    ensures SoonestExpiry(g) <= g.cache.now + RECORD_TTL
  {
  }

  /** Between the two states a call labelled `taken` was counted in the hour `w`: as the next call
      of a counter that is still there, or as the first of one, which then lives for 3700 seconds. */
  ghost predicate CountsIn(g: Gateway, g': Gateway, caller: nat, taken: real, w: int, count: nat) {
    && w as real * 3600.0 <= taken < w as real * 3600.0 + 3600.0
    && g'.cache == g.cache && g.cache.slot.Holding? && w in g'.usage
    && g'.usage == g.usage[w := g'.usage[w]] && g'.usage[w].count == count
    && count == (if w in g.usage && g.cache.now < g.usage[w].expiry then g.usage[w].count else 0) + 1
    && (if count == 1 then g'.usage[w].expiry == g.cache.now + 3700.0 else w in g.usage && g'.usage[w].expiry == g.usage[w].expiry)
    && g'.charges == g.charges + [Charge(caller, w, g.cache.now, g.cache.slot.value, count <= g.cache.slot.value.limit)]
  }

  lemma ScriptCounts(g: Gateway, caller: nat, taken: real)
    ensures var (g', code, count) := Script(g, caller, Window(taken)); code >= 0 ==> CountsIn(g, g', caller, taken, Window(taken), count)
  {
    WindowBounds(taken);
    hide Window;
  }

  /** Whom an answer has cost what. */
  predicate Counted(charges: seq<Charge>, charges': seq<Charge>, caller: nat, answer: Answer) {
    var before, after := TallyOf(charges, caller), TallyOf(charges', caller);
    match answer
    case Context(_, _) => after == Tally(before.charged + 1, before.admitted + 1)
    case TooManyRequests => after == Tally(before.charged + 1, before.admitted)
    case RedisFailed => after == before || after == Tally(before.charged + 1, before.admitted + 1)
    case _ => after == before
  }

  class Node {
    const record: KeyRecord
    var now: real
    var slot: Slot<KeyRecord>
    var usage: map<int, Counter>

    // The auth service's record over time, the fills under way, and what was charged.
    var history: seq<Era<KeyRecord>>
    var fills: map<nat, Fill<KeyRecord>>
    var charges: seq<Charge>

    ghost var states: seq<Gateway>
    ghost var log: seq<RateLimit.Event>

    function Cache(): TtlCache.State<KeyRecord>
      reads this
    {
      TtlCache.State(now, history, slot, fills)
    }

    function Now(): Gateway
      reads this
    {
      Gateway(Cache(), usage, charges)
    }

    ghost predicate Valid()
      reads this
    {
      |states| == |log| + 1 && RateLimit.IsRun(record, states, log) && states[|log|] == Now()
    }

    constructor (r: KeyRecord)
      ensures Valid() && record == r && Now() == RateLimit.Start(r)
    {
      record, now, slot, usage, history, fills, charges := r, 0.0, Empty, map[], [Era(0.0, r)], map[], [];
      states, log := [RateLimit.Start(r)], [];
    }

    /** The run has been extended. */
    twostate predicate Went()
      reads this
    {
      Valid() && old(log) <= log && old(states) <= states
    }

    ghost method Did(e: RateLimit.Event)
      requires |states| == |log| + 1 && RateLimit.IsRun(record, states, log) && Now() == RateLimit.Step(states[|log|], e)
      modifies `states, `log
      ensures Went() && log == old(log) + [e]
    {
      hide RateLimit.Step;
      states, log := states + [Now()], log + [e];
    }

    method Perform(e: RateLimit.Event)
      requires Valid()
      modifies this
      ensures Went() && Now() == RateLimit.Step(old(Now()), e) && log == old(log) + [e]
    {
      hide RateLimit.Step, RateLimit.IsRun;
      var g := RateLimit.Step(Now(), e);
      now, slot, usage, charges := g.cache.now, g.cache.slot, g.usage, g.charges;
      history, fills := g.cache.history, g.cache.fills;
      Did(e);
    }

    /** Where a request is: what it has been charged, and its fill. */
    ghost predicate At(caller: nat, tally: Tally, fill: Option<Fill<KeyRecord>>)
      reads this
    {
      && Valid() && TallyOf(charges, caller) == tally
      && (if fill.None? then caller !in fills else caller in fills && fills[caller] == fill.value)
    }

    /** Up to `pause` seconds pass, and others act. */
    method Others(caller: nat, pause: real, ghost tally: Tally, ghost fill: Option<Fill<KeyRecord>>, ghost b: real)
      requires At(caller, tally, fill) && 0.0 <= pause && b <= now + RECORD_TTL
      modifies this
      ensures At(caller, tally, fill) && old(now) <= now <= old(now) + pause && Went() && OthersOnly(log, |old(log)|, |log|, caller)
      ensures (old(Safe(Cache(), b)) ==> Safe(Cache(), b)) && (old(Lasting(Cache(), b)) ==> Lasting(Cache(), b))
    {
      hide RateLimit.IsRun, RateLimit.Step, TallyOf, Safe, Lasting;
      var k: nat := *;
      var end := now + pause;
      while k > 0
        invariant At(caller, tally, fill) && old(now) <= now <= end && Went() && OthersOnly(log, |old(log)|, |log|, caller)
        invariant (old(Safe(Cache(), b)) ==> Safe(Cache(), b)) && (old(Lasting(Cache(), b)) ==> Lasting(Cache(), b))
      {
        var e: RateLimit.Event := *;
        if NotBy(e, caller) && RateLimit.Step(Now(), e).cache.now <= end {
          OthersAreElsewhere(Now(), e, caller);
          StepLasts(Now(), e, b);
          Perform(e);
        }
        k := k - 1;
      }
    }

    /** The last event is the script of `caller`, and before it only others acted. */
    ghost predicate Checked(n: nat, caller: nat, taken: real, code: int)
      reads this
    {
      && Valid() && n < |log| && log[|log| - 1] == Check(caller, taken) && states[|log| - 1].cache.now == now
      && Script(states[|log| - 1], caller, Window(taken)).1 == code && OthersOnly(log, n, |log| - 1, caller)
    }

    /** The last event has counted a call of `caller` in the hour of `taken`: as the next call of a
        counter that is still there, or as the first of one that lives for 3700 seconds. */
    ghost predicate CountedIn(caller: nat, taken: real, count: nat)
      reads this
    {
      0 < |log| < |states| && CountsIn(states[|log| - 1], Now(), caller, taken, Window(taken), count)
    }

    /** api_key_repo.py: check_and_increment */
    method CheckAndIncrement(caller: nat, pause: real, ghost tally: Tally, ghost b: real) returns (ok: bool, code: int, count: nat)
      requires At(caller, tally, None) && 0.0 <= pause && b <= now + RECORD_TTL
      modifies this
      ensures At(caller, if ok && code >= 0 then Tally(tally.charged + 1, tally.admitted + code) else tally, None)
      ensures old(now) <= now <= old(now) + pause && Went() && code in {-2, -1, 0, 1}
      ensures ok ==>
                && (code == -2 <==> !Alive(Cache()))
                && (code == -1 <==> Alive(Cache()) && slot.value.status == "revoked")
                && (code >= 0 ==> (code == 1 <==> count <= slot.value.limit))
      ensures ok ==> Checked(|old(log)|, caller, old(now), code)
      ensures old(Lasting(Cache(), b)) ==> Lasting(Cache(), b) && (now < b ==> !ok || code != -2)
      ensures ok && code >= 0 ==> CountedIn(caller, old(now), count)
    {
      hide RateLimit.IsRun, TallyOf, Window, Safe;
      var taken := now;
      Others(caller, pause, tally, None, b);
      ok := *;
      code, count := -2, 0;
      if ok {
        ScriptCounts(Now(), caller, taken);
        var script := Script(Now(), caller, Window(taken));
        code, count := script.1, script.2;
        if code >= 0 {
          OneMore(charges, script.0.charges[|charges|], caller);
        }
        usage, charges := script.0.usage, script.0.charges;
        Did(Check(caller, taken));
      }
    }

    /** The lookup at the auth service. */
    method LookUpApiKey(caller: nat, pause: real, ghost tally: Tally, ghost b: real) returns (ok: bool, metadata: KeyRecord)
      requires At(caller, tally, None) && 0.0 <= pause && b <= now + RECORD_TTL && Safe(Cache(), b)
      modifies this
      ensures old(now) <= now <= old(now) + pause && Went() && Safe(Cache(), b)
      ensures At(caller, tally, if ok then Some(Fill(metadata, now, false)) else None)
    {
      hide RateLimit.IsRun, TallyOf;
      Others(caller, pause, tally, None, b);
      RunHasHistory();
      metadata := history[|history| - 1].value;
      ok := *;
      if ok {
        fills := fills[caller := Fill(metadata, now, false)];
        Did(Cached(LookUp(caller)));
      }
    }

    lemma RunHasHistory()
      requires Valid()
      ensures history != []
    {
      RecordIsThere(record, states, log, |log|);
    }

    /** HSET */
    method WriteRecord(caller: nat, metadata: KeyRecord, at: real, ghost tally: Tally, ghost b: real)
      requires At(caller, tally, Some(Fill(metadata, at, false))) && Safe(Cache(), b)
      modifies this
      ensures At(caller, tally, Some(Fill(metadata, at, true))) && Went() && now == old(now) && Lasting(Cache(), b)
      ensures Alive(Cache()) && slot.value == metadata
    {
      hide RateLimit.IsRun, TallyOf, RateLimit.Window;
      slot := Holding(metadata, at, if Alive(Cache()) then slot.expiry else Never);
      fills := fills[caller := Fill(metadata, at, true)];
      Did(Cached(Hset(caller)));
    }

    /** EXPIRE */
    method RenewRecord(caller: nat, metadata: KeyRecord, at: real, ghost tally: Tally, ghost b: real)
      requires At(caller, tally, Some(Fill(metadata, at, true)))
      modifies this
      ensures At(caller, tally, None) && Went() && now == old(now)
      ensures old(Lasting(Cache(), b)) && now < b ==> Lasting(Cache(), now + 300.0)
    {
      hide RateLimit.IsRun, TallyOf, RateLimit.Window;
      slot := if Alive(Cache()) then slot.(expiry := Expiry.At(now + RECORD_TTL)) else slot;
      fills := fills - {caller};
      Did(Cached(Expire(caller)));
    }

    /** api_key_repo.py: cache_metadata.  Failing before or after HSET. */
    method CacheMetadata(caller: nat, metadata: KeyRecord, pause: real, at: real, ghost tally: Tally, ghost b: real) returns (ok: bool)
      requires At(caller, tally, Some(Fill(metadata, at, false))) && 0.0 <= pause && b <= now + RECORD_TTL && Safe(Cache(), b)
      modifies this
      ensures old(now) <= now <= old(now) + 2.0 * pause && Went() && TallyOf(charges, caller) == tally
      ensures ok ==> At(caller, tally, None)
      ensures ok && now < b ==> Lasting(Cache(), now + RECORD_TTL)
    {
      hide RateLimit.IsRun, TallyOf, NotBy, Safe, Lasting;
      Others(caller, pause, tally, Some(Fill(metadata, at, false)), b);
      ok := *;
      if ok {
        WriteRecord(caller, metadata, at, tally, b);
        Others(caller, pause, tally, Some(Fill(metadata, at, true)), b);
        ok := *;
        if ok {
          RenewRecord(caller, metadata, at, tally, b);
        }
      }
    }

    lemma MissIsSafe(b: real)
      requires !Alive(Cache())
      ensures Safe(Cache(), b)
    {
    }

    /** get_cache_data, after the last await. */
    method ReadRecord(caller: nat, pause: real, ghost tally: Tally, ghost until: real) returns (answer: Answer)
      requires At(caller, tally, None) && 0.0 <= pause && until <= now + RECORD_TTL
      modifies this
      ensures At(caller, tally, None) && old(now) <= now <= old(now) + pause && Went() && OthersOnly(log, |old(log)|, |log|, caller)
      ensures answer == RedisFailed || answer == Read(Cache())
      ensures old(Lasting(Cache(), until)) ==> Lasting(Cache(), until) && (now < until ==> answer == RedisFailed || answer.developer.Some?)
    {
      hide RateLimit.IsRun, TallyOf, Safe, Lasting, NotBy;
      Others(caller, pause, tally, None, until);
      if Lasting(Cache(), until) && now < until { LastingIsAlive(Cache(), until); }
      answer := Read(Cache());
      if * { answer := RedisFailed; }
    }

    /** A miss: the lookup and the filling of the cache. */
    method FillCache(caller: nat, pause: real, ghost tally: Tally) returns (failure: Option<Answer>)
      requires At(caller, tally, None) && 0.0 <= pause && !Alive(Cache())
      modifies this
      ensures Went() && old(now) <= now && TallyOf(charges, caller) == tally
      ensures failure in {None, Some(LookupFailed), Some(RedisFailed)}
      ensures failure != Some(RedisFailed) ==> At(caller, tally, None)
      ensures failure.None? && pause < 100.0 ==> Lasting(Cache(), now + RECORD_TTL)
    {
      hide RateLimit.IsRun, TallyOf, Safe, Lasting, NotBy;
      ghost var b := now + RECORD_TTL;
      MissIsSafe(b);
      var found, metadata := LookUpApiKey(caller, pause, tally, b);
      if !found { return Some(LookupFailed); }
      var cached := CacheMetadata(caller, metadata, pause, now, tally, b);
      failure := if cached then None else Some(RedisFailed);
    }

    /** Developer and plan, if they are known, stood together in the auth service's record at some
        time within the last 300 seconds and the time two fills take, if none takes longer than `l`. */
    ghost predicate Truthful(answer: Answer, l: real)
      reads this
    {
      answer.Context? && (answer.developer.Some? || answer.plan.Some?) && 0.0 <= l && (forall i :: 0 <= i < |states| ==> Timely(states[i].cache, l)) ==>
        exists r, u :: now - 300.0 - 2.0 * l <= u <= now && Held(history, r, u) && answer == Context(Some(r.developer), Some(r.plan))
    }

    lemma NothingIsTruthful(l: real)
      ensures forall a: Answer | !a.Context? || a == Context(None, None) :: Truthful(a, l)
    {
    }

    lemma AnswerIsTruthful(l: real)
      requires Valid()
      ensures Truthful(Read(Cache()), l)
    {
      hide Held;
      NothingIsTruthful(l);
      if Alive(Cache()) && 0.0 <= l && forall i :: 0 <= i < |states| ==> Timely(states[i].cache, l) {
        RunFounds(record, states, log, l, |log|);
        SlotIsFresh(Cache(), RECORD_TTL, l, l);
      }
    }

    /** get_context for the request `caller`, with so many levels of recursion left.

        Whoever is answered has been counted exactly once, and so is whoever is told that the
        limit is reached; a revoked key and a failed lookup cost nothing.  If no await takes
        100 seconds the entry just filled is still there, so two levels are enough, and the
        developer is known after a fill.  Without a fill it is known if the record found does
        not expire during the call; a call at the first level is a hit as defined above. */
    method GetContext(caller: nat, levels: nat, pause: real, ghost l: real) returns (answer: Answer, ghost depth: nat)
      requires Valid() && caller !in fills && 0.0 <= pause
      modifies this
      decreases levels
      ensures Went() && old(now) <= now && (answer != RedisFailed ==> caller !in fills)
      ensures Counted(old(charges), charges, caller, answer)
      ensures answer.Context? ==> depth >= 1
      ensures answer.Context? ==>
                answer == if Alive(Cache()) then Context(Some(slot.value.developer), Some(slot.value.plan)) else Context(None, None)
      ensures Truthful(answer, l)
      ensures depth == 1 && answer.Context? ==>
                now <= old(now) + 2.0 * pause && exists k :: Hit(states, log, |old(log)|, |log|, caller, pause, k)
      ensures depth == 1 && answer.Context? && old(Lasting(Cache(), now + RECORD_TTL)) ==> Lasting(Cache(), old(now) + RECORD_TTL)
      ensures 2.0 * pause < RECORD_TTL && old(KnownFor(Now(), 2.0 * pause)) && answer.Context? ==> answer.developer.Some?
      ensures pause < 100.0 && depth == 2 && answer.Context? ==> answer.developer.Some?
      ensures pause < 100.0 && levels >= 2 ==> answer != RecursionError && depth <= 2
      ensures pause < 100.0 && levels >= 1 && old(Lasting(Cache(), now + RECORD_TTL)) ==> answer != RecursionError && depth <= 1
    {
      hide RateLimit.IsRun, TallyOf, Safe, Lasting, NotBy, OthersOnly, Hit, Script, Alive, KnownFor, SoonestExpiry, Truthful, Held, Timely;
      NothingIsTruthful(l);
      if levels == 0 { return RecursionError, 0; }
      ghost var tally := TallyOf(charges, caller);
      depth := 1;
      ghost var until := SoonestExpiry(Now());
      KnownLasts(Now(), 2.0 * pause);
      var ok, code, count := CheckAndIncrement(caller, pause, tally, until);
      NothingIsTruthful(l);
      if !ok { return RedisFailed, 1; }
      if code == -1 { return Unauthorized, 1; }
      if code == 0 { return TooManyRequests, 1; }
      if code == -2 {
        var failure := FillCache(caller, pause, tally);
        NothingIsTruthful(l);
        if failure.Some? { return failure.value, 1; }
        until := now + RECORD_TTL;
        var inner, innerDepth := GetContext(caller, levels - 1, pause, l);
        depth := innerDepth + 1;
        if !inner.Context? { return inner, depth; }
        answer := ReadRecord(caller, pause, TallyOf(charges, caller), until);
        NothingIsTruthful(l);
        AnswerIsTruthful(l);
      } else {
        ghost var states0, log0 := states, log;
        answer := ReadRecord(caller, pause, TallyOf(charges, caller), until);
        HitFromParts(states0, log0, states, log, |old(log)|, caller, pause);
        NothingIsTruthful(l);
        AnswerIsTruthful(l);
      }
    }
  }
}
