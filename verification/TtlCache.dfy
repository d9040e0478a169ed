/** A Redis hash used as a read-through cache: on a miss the authoritative value is looked
    up, written with HSET, and only then given its time to live with EXPIRE.

    Both caches of the system are this one: the API keys of the gateway (300 seconds) and
    the webhook configurations of the dispatcher (600 seconds).  Several fills may be under
    way at once, and HSET on a live hash keeps the time to live the hash already has. */
module TtlCache {

  /** The authoritative value from `since` to the next era. */
  datatype Era<+V> = Era(since: real, value: V)

  /** A fill between its lookup, at `at`, and its EXPIRE. */
  datatype Fill<+V> = Fill(value: V, at: real, written: bool)

  datatype Expiry = Never | At(time: real)

  /** `born` is when the value was looked up. */
  datatype Slot<+V> = Empty | Holding(value: V, born: real, expiry: Expiry)

  datatype State<+V> = State(now: real, history: seq<Era<V>>, slot: Slot<V>, fills: map<nat, Fill<V>>)

  datatype Event<+V> = Pass(dt: real) | Change(value: V) | LookUp(fill: nat) | Hset(fill: nat) | Expire(fill: nat) | Abandon(fill: nat)

  function Start<V>(v: V): State<V> { State(0.0, [Era(0.0, v)], Empty, map[]) }

  predicate Alive<V>(s: State<V>) {
    s.slot.Holding? && (s.slot.expiry.Never? || s.now < s.slot.expiry.time)
  }

  function Step<V>(s: State<V>, e: Event<V>, ttl: real): State<V> {
    match e
    case Pass(dt) => if dt >= 0.0 then s.(now := s.now + dt) else s
    case Change(v) => s.(history := s.history + [Era(s.now, v)])
    case LookUp(f) =>
      if f !in s.fills && s.history != [] then
        s.(fills := s.fills[f := Fill(s.history[|s.history| - 1].value, s.now, false)])
      else s
    case Hset(f) =>
      if f in s.fills && !s.fills[f].written then
        s.(slot := Holding(s.fills[f].value, s.fills[f].at, if Alive(s) then s.slot.expiry else Never),
           fills := s.fills[f := s.fills[f].(written := true)])
      else s
    case Expire(f) =>
      if f in s.fills && s.fills[f].written then
        s.(slot := if Alive(s) then s.slot.(expiry := At(s.now + ttl)) else s.slot, fills := s.fills - {f})
      else s
    case Abandon(f) =>
      if f in s.fills && !s.fills[f].written then s.(fills := s.fills - {f}) else s
  }

  ghost predicate IsRun<V(!new)>(v: V, ttl: real, states: seq<State<V>>, log: seq<Event<V>>) {
    && |states| == |log| + 1
    && states[0] == Start(v)
    && forall i {:trigger log[i]} :: 0 <= i < |log| ==> states[i + 1] == Step(states[i], log[i], ttl)
  }

  /** Every fill takes at most `l` seconds from its lookup to its EXPIRE. */
  ghost predicate Timely<V>(s: State<V>, l: real) {
    forall f | f in s.fills :: s.now <= s.fills[f].at + l
  }

  /** No two fills are between their HSET and their EXPIRE. */
  ghost predicate Serial<V>(s: State<V>) {
    forall f, g | f in s.fills && g in s.fills && s.fills[f].written && s.fills[g].written :: f == g
  }

  ghost predicate TimelyRun<V(!new)>(v: V, ttl: real, l: real, states: seq<State<V>>, log: seq<Event<V>>) {
    IsRun(v, ttl, states, log) && forall i :: 0 <= i < |states| ==> Timely(states[i], l)
  }

  ghost predicate SerialRun<V(!new)>(states: seq<State<V>>) {
    forall i :: 0 <= i < |states| ==> Serial(states[i])
  }

  /** `v` was the authoritative value at time `u`. */
  ghost predicate Held<V>(history: seq<Era<V>>, v: V, u: real) {
    exists k :: HeldIn(history, k, v, u)
  }

  ghost predicate HeldIn<V>(history: seq<Era<V>>, k: int, v: V, u: real) {
    0 <= k < |history| && history[k].value == v && history[k].since <= u && (k + 1 < |history| ==> u <= history[k + 1].since)
  }

  ghost predicate HistoryOk<V>(s: State<V>) {
    s.history != [] && forall k :: 0 <= k < |s.history| ==> s.history[k].since <= s.now
  }

  ghost predicate FillOk<V(!new)>(s: State<V>, f: nat) {
    f in s.fills && s.fills[f].at <= s.now && Held(s.history, s.fills[f].value, s.fills[f].at)
  }

  ghost predicate Pending<V>(s: State<V>) {
    exists f :: f in s.fills && s.fills[f].written
  }

  /** `k` is how much later than the cached value's lookup an unfinished fill's can be. */
  ghost predicate SlotOk<V(!new)>(s: State<V>, ttl: real, l: real, k: real) {
    Alive(s) ==>
      && s.slot.born <= s.now && Held(s.history, s.slot.value, s.slot.born)
      && (forall f | f in s.fills && s.fills[f].written :: s.fills[f].at <= s.slot.born + k)
      && (Pending(s) || (s.slot.expiry.At? && s.slot.expiry.time <= s.slot.born + l + k + ttl))
  }

  ghost predicate Inv<V(!new)>(s: State<V>, ttl: real, l: real, k: real) {
    HistoryOk(s) && (forall f | f in s.fills :: FillOk(s, f)) && SlotOk(s, ttl, l, k)
  }

  lemma HeldStays<V(!new)>(s: State<V>, v': V, v: V, u: real)
    requires Held(s.history, v, u) && u <= s.now
    ensures Held(s.history + [Era(s.now, v')], v, u)
  {
    var k :| HeldIn(s.history, k, v, u);
    assert HeldIn(s.history + [Era(s.now, v')], k, v, u);
  }

  lemma LookUpSeesTheLatest<V(!new)>(s: State<V>)
    requires HistoryOk(s)
    ensures Held(s.history, s.history[|s.history| - 1].value, s.now)
  {
    assert HeldIn(s.history, |s.history| - 1, s.history[|s.history| - 1].value, s.now);
  }

  lemma StepKeeps<V(!new)>(s: State<V>, e: Event<V>, ttl: real, l: real, k: real)
    requires Inv(s, ttl, l, k) && Timely(s, l) && Timely(Step(s, e, ttl), l)
    requires 0.0 <= l && 0.0 <= k && (l <= k || Serial(Step(s, e, ttl)))
    ensures Inv(Step(s, e, ttl), ttl, l, k)
  {
    hide Held;
    var s' := Step(s, e, ttl);
    LookUpSeesTheLatest(s);
    if e.Change? {
      forall v, u | Held(s.history, v, u) && u <= s.now ensures Held(s'.history, v, u) {
        HeldStays(s, e.value, v, u);
      }
    }
    if s' != s && !e.Pass? && !e.Change? {
      forall f | f in s'.fills ensures FillOk(s', f) {
        assert f in s.fills ==> FillOk(s, f);
      }
      if e.Hset? {
        assert FillOk(s, e.fill) && s'.fills[e.fill].written;
      } else if e.Expire? {
        assert FillOk(s, e.fill);
      } else if Pending(s) {
        var f :| f in s.fills && s.fills[f].written;
        assert f in s'.fills && s'.fills[f].written;
      }
    }
  }

  lemma {:induction false} RunKeeps<V(!new)>(v: V, ttl: real, l: real, k: real, states: seq<State<V>>, log: seq<Event<V>>, n: nat)
    requires TimelyRun(v, ttl, l, states, log) && n <= |log|
    requires 0.0 <= l && 0.0 <= k && (l <= k || SerialRun(states))
    ensures Inv(states[n], ttl, l, k)
  {
    if n == 0 {
      assert HeldIn(states[0].history, 0, v, 0.0);
    } else {
      RunKeeps(v, ttl, l, k, states, log, n - 1);
      assert states[n - 1 + 1] == Step(states[n - 1], log[n - 1], ttl);
      hide Step, Inv, Timely, Serial;
      StepKeeps(states[n - 1], log[n - 1], ttl, l, k);
    }
  }

  lemma SlotIsFresh<V(!new)>(s: State<V>, ttl: real, l: real, k: real)
    requires Inv(s, ttl, l, k) && Timely(s, l) && Alive(s) && 0.0 <= ttl
    ensures s.now - ttl - l - k <= s.slot.born <= s.now && Held(s.history, s.slot.value, s.slot.born)
  {
    hide Held;
    if Pending(s) {
      var f :| f in s.fills && s.fills[f].written;
      assert s.now <= s.fills[f].at + l;
    }
  }

  /** What the cache shows was the authoritative value at some time within the last
      `ttl` seconds and the time two fills take; one fill, if fills never overlap. */
  lemma Staleness<V(!new)>(v: V, ttl: real, l: real, states: seq<State<V>>, log: seq<Event<V>>)
    requires TimelyRun(v, ttl, l, states, log) && 0.0 <= l && 0.0 <= ttl
    ensures var s := states[|log|];
            Alive(s) ==> exists u :: s.now - ttl - 2.0 * l <= u <= s.now && Held(s.history, s.slot.value, u)
    ensures var s := states[|log|];
            Alive(s) && SerialRun(states) ==> exists u :: s.now - ttl - l <= u <= s.now && Held(s.history, s.slot.value, u)
  {
    hide Step, Held;
    var s := states[|log|];
    if Alive(s) {
      RunKeeps(v, ttl, l, l, states, log, |log|);
      SlotIsFresh(s, ttl, l, l);
      if SerialRun(states) {
        RunKeeps(v, ttl, l, 0.0, states, log, |log|);
        SlotIsFresh(s, ttl, l, 0.0);
      }
    }
  }

  /** A fill that looked up the old value just before it changed, and one that looks up the
      new value `l` seconds later, writes it first and gives it its time to live last. */
  function Overlap<V>(v': V, l: real, wait: real): seq<Event<V>> {
    [LookUp(0), Change(v'), Pass(l), LookUp(1), Hset(1), Hset(0), Expire(0), Pass(l), Expire(1), Pass(wait)]
  }

  /** The states of that run. */
  function Scene<V>(v: V, v': V, ttl: real, l: real, wait: real, i: nat): State<V> {
    var first, second := Fill(v, 0.0, false), Fill(v', l, false);
    var h := [Era(0.0, v)] + if i < 2 then [] else [Era(0.0, v')];
    if i == 0 then State(0.0, h, Empty, map[])
    else if i <= 3 then State(if i < 3 then 0.0 else l, h, Empty, map[0 := first])
    else if i == 4 then State(l, h, Empty, map[0 := first, 1 := second])
    else if i == 5 then State(l, h, Holding(v', l, Never), map[0 := first, 1 := second.(written := true)])
    else if i == 6 then State(l, h, Holding(v, 0.0, Never), map[0 := first.(written := true), 1 := second.(written := true)])
    else if i <= 8 then
      State(if i < 8 then l else l + l, h, Holding(v, 0.0, At(l + ttl)), map[1 := second.(written := true)])
    else State(if i < 10 then l + l else l + l + wait, h, Holding(v, 0.0, At(l + l + ttl)), map[])
  }

  lemma SceneMoves<V>(v: V, v': V, ttl: real, l: real, wait: real, i: nat)
    requires 0.0 <= l < ttl && 0.0 <= wait && i < 10
    ensures Scene(v, v', ttl, l, wait, i + 1) == Step(Scene(v, v', ttl, l, wait, i), Overlap(v', l, wait)[i], ttl)
  {
    if i == 8 {
      assert Step(Scene(v, v', ttl, l, wait, 8), Expire(1), ttl).fills == map[];
    } else if i == 6 {
      assert Step(Scene(v, v', ttl, l, wait, 6), Expire(0), ttl).fills == map[1 := Fill(v', l, true)];
    }
  }

  /** The bound for overlapping fills is tight: for every shorter one there is a run in which
      the cache still shows a value that was last true longer ago. */
  lemma StalenessIsTight<V(!new)>(v: V, v': V, ttl: real, l: real, bound: real) returns (states: seq<State<V>>, log: seq<Event<V>>)
    requires v != v' && 0.0 <= l < ttl && 0.0 <= bound < ttl + 2.0 * l
    ensures TimelyRun(v, ttl, l, states, log)
    ensures var s := states[|log|];
            Alive(s) && forall u :: s.now - bound <= u ==> !Held(s.history, s.slot.value, u)
  {
    var wait := if bound < 2.0 * l then ttl / 2.0 else (bound - 2.0 * l + ttl) / 2.0;
    log := Overlap(v', l, wait);
    states := seq(11, i requires 0 <= i < 11 => Scene(v, v', ttl, l, wait, i));
    forall i {:trigger log[i]} | 0 <= i < |log| ensures states[i + 1] == Step(states[i], log[i], ttl) {
      SceneMoves(v, v', ttl, l, wait, i);
    }
    hide Step, Overlap;
    forall i | 0 <= i < |states| ensures Timely(states[i], l) {
    }
  }

  /** A fill that dies between HSET and EXPIRE leaves a hash that never expires: however long
      ago the value changed, the cache still shows the old one. */
  lemma DeadFillsNeverExpire<V(!new)>(v: V, v': V, ttl: real, age: real) returns (states: seq<State<V>>, log: seq<Event<V>>)
    requires v != v' && 0.0 < age
    ensures IsRun(v, ttl, states, log)
    ensures var s := states[|log|];
            Alive(s) && s.slot.value == v && forall u :: s.now - age < u ==> !Held(s.history, v, u)
  {
    log := [LookUp(0), Hset(0), Change(v'), Pass(age)];
    var s1 := Step(Start(v), log[0], ttl);
    var s2 := Step(s1, log[1], ttl);
    var s3 := Step(s2, log[2], ttl);
    states := [Start(v), s1, s2, s3, Step(s3, log[3], ttl)];
    assert s3.history == [Era(0.0, v), Era(0.0, v')];
  }

  /***** What is written, and how long it lives *****/

  predicate Writes<V>(s: State<V>, e: Event<V>) { e.Hset? && e.fill in s.fills && !s.fills[e.fill].written }

  predicate Renews<V>(s: State<V>, e: Event<V>) { e.Expire? && e.fill in s.fills && s.fills[e.fill].written }

  /** The hash was written at `b`, when there was none, and has been there ever since. */
  ghost predicate BornAt<V(!new)>(states: seq<State<V>>, log: seq<Event<V>>, b: nat, n: nat) {
    b < n <= |log| < |states| && Writes(states[b], log[b]) && !Alive(states[b]) && forall k :: b < k <= n ==> Alive(states[k])
  }

  /** What HSET wrote last. */
  ghost function LastWritten<V(!new)>(states: seq<State<V>>, log: seq<Event<V>>, b: nat, n: nat): V
    requires b < n <= |log| < |states| && Writes(states[b], log[b])
  {
    if Writes(states[n - 1], log[n - 1]) then states[n - 1].fills[log[n - 1].fill].value
    else LastWritten(states, log, b, n - 1)
  }

  /** The end that the last EXPIRE since `b` has set, if there was one. */
  ghost function LastRenewed<V(!new)>(states: seq<State<V>>, log: seq<Event<V>>, b: nat, n: nat, ttl: real): Expiry
    requires b < n <= |log| < |states|
  {
    if n == b + 1 then Never
    else if Renews(states[n - 1], log[n - 1]) then At(states[n - 1].now + ttl)
    else LastRenewed(states, log, b, n - 1, ttl)
  }

  lemma OneStep<V>(s: State<V>, e: Event<V>, ttl: real)
    requires 0.0 < ttl
    ensures var s' := Step(s, e, ttl);
            && (Writes(s, e) ==> Alive(s') && s'.slot.value == s.fills[e.fill].value && s'.slot.expiry == if Alive(s) then s.slot.expiry else Never)
            && (!Writes(s, e) ==> (Alive(s') ==> Alive(s)) && (Alive(s) ==> s'.slot.Holding? && s'.slot.value == s.slot.value))
            && (!Writes(s, e) && Alive(s) ==> s'.slot.expiry == if Renews(s, e) then At(s.now + ttl) else s.slot.expiry)
  {
  }

  /** The history of a hash in Redis, in any run: what is shown is what was written last since
      the hash was created, and it lives until the last EXPIRE since then has run out, or for ever
      if there was none; HSET on a live hash does not touch its time to live. */
  lemma {:induction false} LifeSinceBirth<V(!new)>(v: V, ttl: real, states: seq<State<V>>, log: seq<Event<V>>, n: nat)
    requires IsRun(v, ttl, states, log) && n <= |log| && 0.0 < ttl
    ensures Alive(states[n]) ==>
              exists b: nat :: BornAt(states, log, b, n)
                && states[n].slot.value == LastWritten(states, log, b, n)
                && states[n].slot.expiry == LastRenewed(states, log, b, n, ttl)
    ensures forall b: nat :: n > 0 && BornAt(states, log, b, n - 1) ==>
              (Alive(states[n]) <==> LastRenewed(states, log, b, n, ttl).Never? || states[n].now < LastRenewed(states, log, b, n, ttl).time)
  {
    if n > 0 {
      LifeSinceBirth(v, ttl, states, log, n - 1);
      var s, e := states[n - 1], log[n - 1];
      assert states[n - 1 + 1] == Step(s, e, ttl);
      OneStep(s, e, ttl);
      hide Step, IsRun;
      if Alive(s) {
        var b: nat :| BornAt(states, log, b, n - 1) && s.slot.value == LastWritten(states, log, b, n - 1)
                      && s.slot.expiry == LastRenewed(states, log, b, n - 1, ttl);
        var m := n - 1;
        forall b': nat | BornAt(states, log, b', m) ensures b' == b { BornOnce(states, log, b, b', m); }
        assert Alive(states[n]) ==> BornAt(states, log, b, n);
      } else {
        assert Alive(states[n]) ==> BornAt(states, log, n - 1, n);
      }
    }
  }

  lemma BornOnce<V(!new)>(states: seq<State<V>>, log: seq<Event<V>>, b: nat, b': nat, n: nat)
    requires BornAt(states, log, b, n) && BornAt(states, log, b', n)
    ensures b == b'
  {
    hide Alive, Writes;
  }

  /***** One fill among others *****/

  /** What everybody but the fill `fill` can do. */
  predicate ByOthers<V>(e: Event<V>, fill: nat) {
    match e
    case LookUp(f) => f != fill
    case Hset(f) => f != fill
    case Expire(f) => f != fill
    case Abandon(f) => f != fill
    case _ => true
  }

  ghost predicate SameFill<V>(s: State<V>, s': State<V>, fill: nat) {
    (fill in s'.fills <==> fill in s.fills) && (fill in s.fills ==> s'.fills[fill] == s.fills[fill])
  }

  /** A live hash lasts until `b`. */
  ghost predicate Safe<V>(s: State<V>, b: real) {
    Alive(s) ==> s.slot.expiry.Never? || s.slot.expiry.time >= b
  }

  /** There is a hash, and it lasts until `b`. */
  ghost predicate Lasting<V>(s: State<V>, b: real) {
    s.slot.Holding? && (s.slot.expiry.Never? || s.slot.expiry.time >= b)
  }

  /** Nobody shortens a life to less than one time to live from now. */
  lemma StepKeepsLasting<V>(s: State<V>, e: Event<V>, ttl: real, b: real)
    requires b <= s.now + ttl
    ensures var s' := Step(s, e, ttl);
            s.now <= s'.now && (Safe(s, b) ==> Safe(s', b)) && (Lasting(s, b) ==> Lasting(s', b))
  {
  }

  lemma OthersKeepFill<V>(s: State<V>, e: Event<V>, ttl: real, fill: nat)
    requires ByOthers(e, fill)
    ensures SameFill(s, Step(s, e, ttl), fill)
  {
  }

  lemma LastingIsAlive<V>(s: State<V>, b: real)
    requires Lasting(s, b) && s.now < b
    ensures Alive(s)
  {
  }

  lemma HistoryStays<V>(s: State<V>, e: Event<V>, ttl: real)
    requires s.history != []
    ensures Step(s, e, ttl).history != []
  {
  }

  lemma {:induction false} HistoryIsThere<V(!new)>(v: V, ttl: real, states: seq<State<V>>, log: seq<Event<V>>, n: nat)
    requires IsRun(v, ttl, states, log) && n <= |log|
    ensures states[n].history != []
  {
    if n > 0 {
      HistoryIsThere(v, ttl, states, log, n - 1);
      assert states[n - 1 + 1] == Step(states[n - 1], log[n - 1], ttl);
      HistoryStays(states[n - 1], log[n - 1], ttl);
    }
  }
}
