/** The gateway's rate limiter (gateway/cache/api_key_repo.py) for one API key: the Lua
    script over the cached key record and the usage counters of the hourly windows. */
module RateLimit {
  import opened TtlCache

  /** The fields of the cached record that are read back. */
  datatype KeyRecord = KeyRecord(status: string, developer: string, plan: string, limit: int)

  datatype Counter = Counter(count: nat, expiry: real)

  /** A call that was counted. */
  datatype Charge = Charge(caller: nat, window: int, at: real, record: KeyRecord, admitted: bool)

  datatype Gateway = Gateway(cache: TtlCache.State<KeyRecord>, usage: map<int, Counter>, charges: seq<Charge>)

  /** Check: `taken` is when `current_window` read the clock. */
  datatype Event = Cached(e: TtlCache.Event<KeyRecord>) | Check(caller: nat, taken: real)

  const HOUR: real := 3600.0
  const USAGE_TTL: real := 3700.0
  const RECORD_TTL: real := 300.0

  function Window(t: real): int { (t / HOUR).Floor }

  /** The Lua script, with the codes it returns. */
  function Script(g: Gateway, caller: nat, w: int): (Gateway, int, nat) {
    var now := g.cache.now;
    if !Alive(g.cache) then (g, -2, 0)
    else if g.cache.slot.value.status == "revoked" then (g, -1, 0)
    else
      var count := (if w in g.usage && now < g.usage[w].expiry then g.usage[w].count else 0) + 1;
      var expiry := if count == 1 then now + USAGE_TTL else g.usage[w].expiry;
      var limit := g.cache.slot.value.limit;
      (g.(usage := g.usage[w := Counter(count, expiry)],
          charges := g.charges + [Charge(caller, w, now, g.cache.slot.value, count <= limit)]),
       if count > limit then 0 else 1, count)
  }

  function Start(r: KeyRecord): Gateway { Gateway(TtlCache.Start(r), map[], []) }

  function Step(g: Gateway, e: Event): Gateway {
    match e
    case Cached(c) => g.(cache := TtlCache.Step(g.cache, c, RECORD_TTL))
    case Check(caller, taken) => Script(g, caller, Window(taken)).0
  }

  ghost predicate IsRun(r: KeyRecord, states: seq<Gateway>, log: seq<Event>) {
    && |states| == |log| + 1
    && states[0] == Start(r)
    && forall i {:trigger log[i]} :: 0 <= i < |log| ==> states[i + 1] == Step(states[i], log[i])
  }

  /** The script runs at most `delay` seconds after its label was taken. */
  ghost predicate Prompt(states: seq<Gateway>, log: seq<Event>, delay: real)
    requires |states| == |log| + 1
  {
    forall i :: 0 <= i < |log| && log[i].Check? ==> log[i].taken <= states[i].cache.now <= log[i].taken + delay
  }

  function ChargedIn(charges: seq<Charge>, w: int): nat {
    if charges == [] then 0
    else ChargedIn(charges[..|charges| - 1], w) + if charges[|charges| - 1].window == w then 1 else 0
  }

  function AdmittedIn(charges: seq<Charge>, w: int): nat {
    if charges == [] then 0
    else
      var c := charges[|charges| - 1];
      AdmittedIn(charges[..|charges| - 1], w) + if c.window == w && c.admitted then 1 else 0
  }

  function AdmittedBetween(charges: seq<Charge>, from: real, to: real): nat {
    if charges == [] then 0
    else
      var c := charges[|charges| - 1];
      AdmittedBetween(charges[..|charges| - 1], from, to) + if from <= c.at <= to && c.admitted then 1 else 0
  }

  /***** The counter *****/

  ghost predicate CounterOk(g: Gateway, w: int) {
    if ChargedIn(g.charges, w) == 0 then w !in g.usage
    else w in g.usage && g.usage[w].count == ChargedIn(g.charges, w) && g.usage[w].expiry >= w as real * HOUR + USAGE_TTL
  }

  /** A charge was admitted if and only if it was one of the first `limit` of its window. */
  ghost predicate FairlyDecided(charges: seq<Charge>, i: nat)
    requires i < |charges|
  {
    charges[i].admitted <==> ChargedIn(charges[..i + 1], charges[i].window) <= charges[i].record.limit
  }

  ghost predicate InWindow(c: Charge, delay: real) {
    c.window as real * HOUR <= c.at < c.window as real * HOUR + HOUR + delay
  }

  ghost predicate CountsOk(g: Gateway, delay: real) {
    && (forall w :: CounterOk(g, w))
    && (forall i: nat | i < |g.charges| :: FairlyDecided(g.charges, i) && InWindow(g.charges[i], delay))
  }

  lemma WindowBounds(t: real)
    ensures Window(t) as real * HOUR <= t < Window(t) as real * HOUR + HOUR
  {
    var q := t / HOUR;
    assert q * HOUR == t;
    assert q.Floor as real <= q < q.Floor as real + 1.0;
  }

  lemma OneMoreCharge(charges: seq<Charge>, c: Charge, w: int)
    ensures ChargedIn(charges + [c], w) == ChargedIn(charges, w) + if c.window == w then 1 else 0
    ensures AdmittedIn(charges + [c], w) == AdmittedIn(charges, w) + if c.window == w && c.admitted then 1 else 0
  {
    assert (charges + [c])[..|charges|] == charges;
  }

  /** The counters after one more charge. */
  lemma CountersStay(g: Gateway, c: Charge, counter: Counter, w: int)
    requires CounterOk(g, w)
    requires c.window == w ==> counter.count == ChargedIn(g.charges, w) + 1 && counter.expiry >= w as real * HOUR + USAGE_TTL
    ensures CounterOk(g.(usage := g.usage[c.window := counter], charges := g.charges + [c]), w)
  {
    OneMoreCharge(g.charges, c, w);
  }

  lemma DecisionsStay(charges: seq<Charge>, c: Charge, delay: real)
    requires forall i: nat | i < |charges| :: FairlyDecided(charges, i) && InWindow(charges[i], delay)
    requires InWindow(c, delay) && (c.admitted <==> ChargedIn(charges, c.window) + 1 <= c.record.limit)
    ensures forall i: nat | i < |charges| + 1 :: FairlyDecided(charges + [c], i) && InWindow((charges + [c])[i], delay)
  {
    OneMoreCharge(charges, c, c.window);
    hide ChargedIn, InWindow;
    var all := charges + [c];
    forall i: nat | i < |all| ensures FairlyDecided(all, i) && InWindow(all[i], delay) {
      if i < |charges| {
        assert FairlyDecided(charges, i) && all[..i + 1] == charges[..i + 1];
      } else {
        assert all[..i + 1] == all;
      }
    }
  }

  lemma CheckCounts(g: Gateway, caller: nat, taken: real, delay: real)
    requires CountsOk(g, delay) && 0.0 <= delay <= 100.0 && taken <= g.cache.now <= taken + delay
    ensures var (g', code, count) := Script(g, caller, Window(taken));
            && CountsOk(g', delay)
            && (code >= 0 ==> count == ChargedIn(g.charges, Window(taken)) + 1)
  {
    hide Window, ChargedIn, FairlyDecided;
    var w := Window(taken);
    var (g', code, count) := Script(g, caller, w);
    WindowBounds(taken);
    assert CounterOk(g, w);
    if code >= 0 {
      var c := g'.charges[|g.charges|];
      DecisionsStay(g.charges, c, delay);
      hide InWindow;
      forall v ensures CounterOk(g', v) {
        assert CounterOk(g, v);
        CountersStay(g, c, g'.usage[w], v);
        hide CounterOk;
      }
    }
  }

  lemma {:induction false} RunCounts(r: KeyRecord, states: seq<Gateway>, log: seq<Event>, delay: real, n: nat)
    requires IsRun(r, states, log) && Prompt(states, log, delay) && 0.0 <= delay <= 100.0 && n <= |log|
    ensures CountsOk(states[n], delay)
  {
    if n > 0 {
      RunCounts(r, states, log, delay, n - 1);
      assert states[n - 1 + 1] == Step(states[n - 1], log[n - 1]);
      hide CountsOk, Script;
      match log[n - 1] {
        case Check(caller, taken) => CheckCounts(states[n - 1], caller, taken, delay);
        case Cached(c) => CacheEventsCountNothing(states[n - 1], c, delay);
      }
    }
  }

  lemma CacheEventsCountNothing(g: Gateway, e: TtlCache.Event<KeyRecord>, delay: real)
    requires CountsOk(g, delay)
    ensures CountsOk(Step(g, Cached(e)), delay)
  {
    hide ChargedIn, InWindow, FairlyDecided;
    var g' := Step(g, Cached(e));
    forall w ensures CounterOk(g', w) { assert CounterOk(g, w); }
    assert g'.charges == g.charges;
  }

  /** If labels are at most 100 seconds old, no window ever loses its counter: each charge is
      decided by its true position in its window, and so is the next one. */
  lemma CounterIsExact(r: KeyRecord, states: seq<Gateway>, log: seq<Event>, taken: real, caller: nat)
    requires IsRun(r, states, log) && Prompt(states, log, 100.0)
    ensures forall i: nat | i < |states[|log|].charges| :: FairlyDecided(states[|log|].charges, i)
    ensures var g := states[|log|];
            var (_, code, count) := Script(g, caller, Window(taken));
            taken <= g.cache.now <= taken + 100.0 && code >= 0 ==> count == ChargedIn(g.charges, Window(taken)) + 1
  {
    RunCounts(r, states, log, 100.0, |log|);
    var g := states[|log|];
    if taken <= g.cache.now <= taken + 100.0 {
      CheckCounts(g, caller, taken, 100.0);
    }
    hide FairlyDecided, ChargedIn;
  }

  /***** What is admitted *****/

  function Min(a: int, b: int): int { if a < b then a else b }

  /** The charges of a prefix are decided as before. */
  lemma PrefixIsFair(charges: seq<Charge>)
    requires charges != [] && forall i: nat | i < |charges| :: FairlyDecided(charges, i)
    ensures var rest := charges[..|charges| - 1];
            forall i: nat | i < |rest| :: rest[i] == charges[i] && FairlyDecided(rest, i)
  {
    var rest := charges[..|charges| - 1];
    hide ChargedIn;
    forall i: nat | i < |rest| ensures FairlyDecided(rest, i) {
      assert FairlyDecided(charges, i) && rest[..i + 1] == charges[..i + 1];
    }
  }

  lemma {:induction false} AdmissionsOf(charges: seq<Charge>, w: int, limit: nat)
    requires forall i: nat | i < |charges| :: FairlyDecided(charges, i)
    ensures (forall c | c in charges && c.window == w :: c.record.limit == limit) ==> AdmittedIn(charges, w) == Min(limit, ChargedIn(charges, w))
    ensures (forall c | c in charges && c.window == w :: c.record.limit <= limit) ==> AdmittedIn(charges, w) <= Min(limit, ChargedIn(charges, w))
  {
    if charges != [] {
      var rest, c := charges[..|charges| - 1], charges[|charges| - 1];
      PrefixIsFair(charges);
      AdmissionsOf(rest, w, limit);
      assert charges == rest + [c];
      OneMoreCharge(rest, c, w);
      assert FairlyDecided(charges, |charges| - 1) && charges[..|charges|] == charges;
      hide ChargedIn, AdmittedIn;
      assert c in charges && forall d | d in rest :: d in charges;
    }
  }

  /** Of the calls counted in a window as many are admitted as the limit allows; if the cached
      limit changes during the window, no more than its largest value. */
  lemma WindowsAreFair(r: KeyRecord, states: seq<Gateway>, log: seq<Event>, w: int, limit: nat)
    requires IsRun(r, states, log) && Prompt(states, log, 100.0)
    ensures var charges := states[|log|].charges;
            && ((forall c | c in charges && c.window == w :: c.record.limit == limit) ==> AdmittedIn(charges, w) == Min(limit, ChargedIn(charges, w)))
            && ((forall c | c in charges && c.window == w :: c.record.limit <= limit) ==> AdmittedIn(charges, w) <= limit)
  {
    RunCounts(r, states, log, 100.0, |log|);
    AdmissionsOf(states[|log|].charges, w, limit);
    hide ChargedIn, AdmittedIn;
  }

  /** At most two windows meet an hour if labels are exact, three if they can be late. */
  lemma {:induction false} SpreadOver(charges: seq<Charge>, from: real, to: real, w: int)
    ensures (forall c | c in charges && from <= c.at <= to :: c.window == w || c.window == w + 1) ==>
              AdmittedBetween(charges, from, to) <= AdmittedIn(charges, w) + AdmittedIn(charges, w + 1)
    ensures (forall c | c in charges && from <= c.at <= to :: w - 1 <= c.window <= w + 1) ==>
              AdmittedBetween(charges, from, to) <= AdmittedIn(charges, w - 1) + AdmittedIn(charges, w) + AdmittedIn(charges, w + 1)
  {
    if charges != [] {
      var rest, c := charges[..|charges| - 1], charges[|charges| - 1];
      SpreadOver(rest, from, to, w);
      assert c in charges && forall d | d in rest :: d in charges;
    }
  }

  lemma WindowsMet(c: Charge, from: real, to: real, delay: real)
    requires from <= c.at <= to <= from + HOUR && InWindow(c, delay) && 0.0 <= delay <= 100.0
    ensures delay == 0.0 ==> c.window == Window(from) || c.window == Window(from) + 1
    ensures Window(from) - 1 <= c.window <= Window(from) + 1
  {
    WindowBounds(from);
    hide Window;
  }

  lemma WindowAdmits(charges: seq<Charge>, w: int, limit: nat)
    requires forall i: nat | i < |charges| :: FairlyDecided(charges, i)
    requires forall c | c in charges :: c.record.limit <= limit
    ensures AdmittedIn(charges, w) <= limit
  {
    AdmissionsOf(charges, w, limit);
    hide ChargedIn, AdmittedIn, FairlyDecided;
  }

  /** In no stretch of an hour are more than twice the limit admitted, if labels are exact;
      three times the limit, if they can be up to 100 seconds old. */
  lemma BurstsAreBounded(r: KeyRecord, states: seq<Gateway>, log: seq<Event>, limit: nat, from: real, to: real, delay: real)
    requires IsRun(r, states, log) && Prompt(states, log, delay) && 0.0 <= delay <= 100.0 && to <= from + 3600.0
    requires forall c | c in states[|log|].charges :: c.record.limit <= limit
    ensures AdmittedBetween(states[|log|].charges, from, to) <= 3 * limit
    ensures delay == 0.0 ==> AdmittedBetween(states[|log|].charges, from, to) <= 2 * limit
  {
    hide ChargedIn, AdmittedIn, AdmittedBetween, Window, FairlyDecided, InWindow;
    RunCounts(r, states, log, delay, |log|);
    var charges, w := states[|log|].charges, Window(from);
    WindowAdmits(charges, w - 1, limit);
    WindowAdmits(charges, w, limit);
    WindowAdmits(charges, w + 1, limit);
    SpreadOver(charges, from, to, w);
    hide IsRun, Prompt;
    forall c | c in charges && from <= c.at <= to
      ensures w - 1 <= c.window <= w + 1 && (delay == 0.0 ==> c.window == w || c.window == w + 1)
    {
      var i: nat :| i < |charges| && charges[i] == c;
      assert InWindow(charges[i], delay);
      WindowsMet(c, from, to, delay);
    }
  }

  /***** The bounds are sharp *****/

  lemma More(r: KeyRecord, states: seq<Gateway>, log: seq<Event>, e: Event, delay: real) returns (states': seq<Gateway>, log': seq<Event>)
    requires IsRun(r, states, log) && Prompt(states, log, delay)
    requires e.Check? ==> e.taken <= states[|log|].cache.now <= e.taken + delay
    ensures |states'| == |log'| + 1 && IsRun(r, states', log') && Prompt(states', log', delay)
    ensures states'[|log'|] == Step(states[|log|], e)
  {
    hide Step;
    log' := log + [e];
    states' := states + [Step(states[|log|], e)];
  }

  ghost predicate Filled(g: Gateway, r: KeyRecord) {
    g.cache.slot == Holding(r, g.cache.now, At(g.cache.now + RECORD_TTL)) && g.cache.fills == map[] && g.cache.history == [Era(0.0, r)]
  }

  /** A miss is filled at once. */
  lemma FillAtOnce(r: KeyRecord, states: seq<Gateway>, log: seq<Event>, delay: real) returns (states': seq<Gateway>, log': seq<Event>)
    requires IsRun(r, states, log) && Prompt(states, log, delay)
    requires var c := states[|log|].cache; !Alive(c) && c.fills == map[] && c.history == [Era(0.0, r)]
    ensures |states'| == |log'| + 1 && IsRun(r, states', log') && Prompt(states', log', delay)
    ensures var g, g' := states[|log|], states'[|log'|];
            Filled(g', r) && g'.cache.now == g.cache.now && g'.usage == g.usage && g'.charges == g.charges
  {
    hide IsRun, Prompt;
    states', log' := More(r, states, log, Cached(LookUp(0)), delay);
    states', log' := More(r, states', log', Cached(Hset(0)), delay);
    states', log' := More(r, states', log', Cached(Expire(0)), delay);
  }

  lemma Nothing(r: KeyRecord, delay: real) returns (states: seq<Gateway>, log: seq<Event>)
    ensures states == [Start(r)] && log == [] && IsRun(r, states, log) && Prompt(states, log, delay)
  {
    states, log := [Start(r)], [];
  }

  /** The key is called once, in the first moment. */
  lemma CallOnce(r: KeyRecord, delay: real) returns (states: seq<Gateway>, log: seq<Event>)
    requires 0.0 <= delay && r.status != "revoked" && r.limit == 1
    ensures |states| == |log| + 1 && IsRun(r, states, log) && Prompt(states, log, delay)
    ensures var g := states[|log|];
            && g.cache.now == 0.0 && Filled(g, r)
            && g.usage == map[0 := Counter(1, USAGE_TTL)] && g.charges == [Charge(0, 0, 0.0, r, true)]
  {
    WindowBounds(0.0);
    hide IsRun, Prompt, Window;
    states, log := Nothing(r, delay);
    states, log := FillAtOnce(r, states, log, delay);
    states, log := More(r, states, log, Check(0, 0.0), delay);
  }

  /** A call labelled in the first hour reaches Redis when that hour's counter has just expired. */
  lemma LateLabelsLoseTheCounter(r: KeyRecord, delay: real) returns (states: seq<Gateway>, log: seq<Event>)
    requires delay > 100.0 && r.status != "revoked" && r.limit == 1
    ensures IsRun(r, states, log) && Prompt(states, log, delay)
    ensures var charges := states[|log|].charges;
            (forall c | c in charges :: c.record == r) && AdmittedIn(charges, 0) == 2
  {
    var taken := if delay >= 101.0 then 3599.0 else USAGE_TTL - delay;
    WindowBounds(taken);
    hide IsRun, Prompt, Window, AdmittedIn;
    assert Window(taken) == 0;
    states, log := CallOnce(r, delay);
    var c0, c1 := Charge(0, 0, 0.0, r, true), Charge(1, 0, USAGE_TTL, r, true);
    states, log := More(r, states, log, Cached(Pass(USAGE_TTL)), delay);
    states, log := FillAtOnce(r, states, log, delay);
    states, log := More(r, states, log, Check(1, taken), delay);
    assert states[|log|].charges == [c0, c1];
    TwoAdmitted(c0, c1);
  }

  lemma TwoAdmitted(c0: Charge, c1: Charge)
    requires c0.window == c1.window == 0 && c0.admitted && c1.admitted
    ensures AdmittedIn([c0, c1], 0) == 2
  {
    OneMoreCharge([], c0, 0);
    OneMoreCharge([c0], c1, 0);
    assert [c0, c1] == [c0] + [c1] && [] + [c0] == [c0];
  }

  lemma OneMoreBetween(charges: seq<Charge>, c: Charge, from: real, to: real)
    ensures AdmittedBetween(charges + [c], from, to) == AdmittedBetween(charges, from, to) + if from <= c.at <= to && c.admitted then 1 else 0
  {
    assert (charges + [c])[..|charges|] == charges;
  }

  /** The key can be called now with a label of window `w`, and `free` of its calls would be
      admitted. */
  ghost predicate Open(g: Gateway, r: KeyRecord, w: int, free: nat) {
    Alive(g.cache) && g.cache.slot.value == r && r.status != "revoked" && ChargedIn(g.charges, w) + free <= r.limit
  }

  /** `k` admitted calls at one moment, with one label. */
  lemma {:induction false} CallMany(r: KeyRecord, states: seq<Gateway>, log: seq<Event>, k: nat, taken: real, delay: real, from: real, to: real)
    returns (states': seq<Gateway>, log': seq<Event>)
    requires |states| == |log| + 1 && IsRun(r, states, log) && Prompt(states, log, delay) && 0.0 <= delay <= 100.0
    requires Open(states[|log|], r, Window(taken), k) && taken <= states[|log|].cache.now <= taken + delay
    requires from <= states[|log|].cache.now <= to
    ensures |states'| == |log'| + 1 && IsRun(r, states', log') && Prompt(states', log', delay)
    ensures var g, g' := states[|log|], states'[|log'|];
            && g'.cache == g.cache
            && AdmittedBetween(g'.charges, from, to) == AdmittedBetween(g.charges, from, to) + k
            && (forall v :: v != Window(taken) ==> ChargedIn(g'.charges, v) == ChargedIn(g.charges, v))
            && (forall c | c in g'.charges :: c in g.charges || c.record == r)
    decreases k
  {
    states', log' := states, log;
    if k > 0 {
      hide IsRun, Prompt, CountsOk, Window;
      var g := states[|log|];
      RunCounts(r, states, log, delay, |log|);
      CheckCounts(g, 0, taken, delay);
      states', log' := More(r, states, log, Check(0, taken), delay);
      var c := Charge(0, Window(taken), g.cache.now, r, true);
      var g' := states'[|log'|];
      assert g'.cache == g.cache && g'.charges == g.charges + [c];
      hide Step;
      OneMoreBetween(g.charges, c, from, to);
      forall v ensures ChargedIn(g'.charges, v) == ChargedIn(g.charges, v) + if v == c.window then 1 else 0 {
        OneMoreCharge(g.charges, c, v);
      }
      hide ChargedIn, AdmittedBetween;
      states', log' := CallMany(r, states', log', k - 1, taken, delay, from, to);
    }
  }

  /** Twice the limit in a stretch as short as one likes: around the turn of the hour. */
  lemma BurstsReachTheBound(r: KeyRecord, width: real) returns (states: seq<Gateway>, log: seq<Event>)
    requires 0.0 < width < 300.0 && r.status != "revoked" && 0 <= r.limit
    ensures IsRun(r, states, log) && Prompt(states, log, 0.0)
    ensures var charges := states[|log|].charges;
            (forall c | c in charges :: c.record == r) && AdmittedBetween(charges, 3600.0 - width, 3600.0) == 2 * r.limit
  {
    WindowBounds(HOUR - width);
    WindowBounds(HOUR);
    hide IsRun, Prompt, Window;
    states, log := Nothing(r, 0.0);
    states, log := More(r, states, log, Cached(Pass(HOUR - width)), 0.0);
    states, log := FillAtOnce(r, states, log, 0.0);
    assert states[|log|].charges == [];
    hide Step;
    states, log := CallMany(r, states, log, r.limit, HOUR - width, 0.0, HOUR - width, HOUR);
    var g := states[|log|];
    states, log := More(r, states, log, Cached(Pass(width)), 0.0);
    TimePasses(g, width);
    states, log := CallMany(r, states, log, r.limit, HOUR, 0.0, HOUR - width, HOUR);
  }

  /** As soon as labels can be late at all, an hour can admit three times the limit: calls with
      a label of the hour before, of the hour, and of the next, so that twice the limit bounds
      every run if and only if labels are exact. */
  lemma LateLabelsTripleTheBurst(r: KeyRecord, delay: real) returns (states: seq<Gateway>, log: seq<Event>)
    requires 0.0 < delay <= 100.0 && r.status != "revoked" && 0 <= r.limit
    ensures IsRun(r, states, log) && Prompt(states, log, delay)
    ensures var charges := states[|log|].charges;
            (forall c | c in charges :: c.record == r) && AdmittedBetween(charges, 3600.0, 7200.0) == 3 * r.limit
  {
    var late := HOUR - delay / 2.0;
    WindowBounds(late);
    WindowBounds(HOUR);
    WindowBounds(HOUR + HOUR);
    hide IsRun, Prompt, Window;
    assert Window(late) == 0 && Window(HOUR) == 1 && Window(HOUR + HOUR) == 2;
    states, log := Nothing(r, delay);
    states, log := More(r, states, log, Cached(Pass(HOUR)), delay);
    states, log := FillAtOnce(r, states, log, delay);
    assert states[|log|].charges == [];
    hide Step;
    states, log := CallMany(r, states, log, r.limit, late, delay, HOUR, HOUR + HOUR);
    states, log := CallMany(r, states, log, r.limit, HOUR, delay, HOUR, HOUR + HOUR);
    var g := states[|log|];
    states, log := More(r, states, log, Cached(Pass(HOUR)), delay);
    TimePasses(g, HOUR);
    states, log := FillAtOnce(r, states, log, delay);
    states, log := CallMany(r, states, log, r.limit, HOUR + HOUR, delay, HOUR, HOUR + HOUR);
  }

  lemma TimePasses(g: Gateway, width: real)
    requires 0.0 < width
    ensures Step(g, Cached(Pass(width))) == g.(cache := g.cache.(now := g.cache.now + width))
  {
  }

  /***** How long a revoked key is still served *****/

  /** The record a charge was decided by was the true one at some time not long before. */
  ghost predicate Founded(history: seq<Era<KeyRecord>>, c: Charge, l: real) {
    c.record.status != "revoked" && exists u :: c.at - 300.0 - 2.0 * l <= u <= c.at && Held(history, c.record, u)
  }

  ghost predicate AllFounded(g: Gateway, l: real) {
    && TtlCache.Inv(g.cache, RECORD_TTL, l, l)
    && forall c | c in g.charges :: c.at <= g.cache.now && Founded(g.cache.history, c, l)
  }

  lemma FoundedStays(g: Gateway, e: TtlCache.Event<KeyRecord>, c: Charge, l: real)
    requires c.at <= g.cache.now && Founded(g.cache.history, c, l)
    ensures Founded(TtlCache.Step(g.cache, e, RECORD_TTL).history, c, l)
  {
    if e.Change? {
      var u :| c.at - 300.0 - 2.0 * l <= u <= c.at && Held(g.cache.history, c.record, u);
      HeldStays(g.cache, e.value, c.record, u);
      hide Held;
    }
  }

  lemma CachedKeepsFounded(g: Gateway, e: TtlCache.Event<KeyRecord>, l: real)
    requires AllFounded(g, l) && Timely(g.cache, l) && Timely(Step(g, Cached(e)).cache, l) && 0.0 <= l
    ensures AllFounded(Step(g, Cached(e)), l)
  {
    StepKeeps(g.cache, e, RECORD_TTL, l, l);
    var g' := Step(g, Cached(e));
    assert g'.cache.now >= g.cache.now;
    forall c | c in g'.charges ensures c.at <= g'.cache.now && Founded(g'.cache.history, c, l) {
      FoundedStays(g, e, c, l);
      hide Founded, TtlCache.Inv, TtlCache.Step;
    }
  }

  lemma CheckKeepsFounded(g: Gateway, caller: nat, taken: real, l: real)
    requires AllFounded(g, l) && Timely(g.cache, l) && 0.0 <= l
    ensures AllFounded(Step(g, Check(caller, taken)), l)
  {
    if Alive(g.cache) { SlotIsFresh(g.cache, RECORD_TTL, l, l); }
    hide Window, TtlCache.Inv, Held, Alive;
    var g' := Step(g, Check(caller, taken));
    assert g'.cache == g.cache;
  }

  lemma {:induction false} RunFounds(r: KeyRecord, states: seq<Gateway>, log: seq<Event>, l: real, n: nat)
    requires IsRun(r, states, log) && 0.0 <= l && n <= |log| && forall i :: 0 <= i < |states| ==> Timely(states[i].cache, l)
    ensures AllFounded(states[n], l)
  {
    if n == 0 {
      assert HeldIn(states[0].cache.history, 0, r, 0.0);
    } else {
      RunFounds(r, states, log, l, n - 1);
      assert states[n - 1 + 1] == Step(states[n - 1], log[n - 1]);
      hide AllFounded, Step, Timely;
      match log[n - 1] {
        case Check(caller, taken) => CheckKeepsFounded(states[n - 1], caller, taken, l);
        case Cached(e) => CachedKeepsFounded(states[n - 1], e, l);
      }
    }
  }

  /** A key that is revoked for good is not served any more 300 seconds and two fills later;
      and every charge was decided by a record that was true that shortly before. */
  lemma RevocationLag(r: KeyRecord, states: seq<Gateway>, log: seq<Event>, l: real, revoked: real)
    requires IsRun(r, states, log) && 0.0 <= l && forall i :: 0 <= i < |states| ==> Timely(states[i].cache, l)
    ensures forall c | c in states[|log|].charges :: Founded(states[|log|].cache.history, c, l)
    ensures (forall v, u :: Held(states[|log|].cache.history, v, u) && u > revoked ==> v.status == "revoked") ==>
              forall c | c in states[|log|].charges :: c.at <= revoked + 300.0 + 2.0 * l
  {
    hide Held;
    RunFounds(r, states, log, l, |log|);
  }
}
