/** dispatcher/orchestrator/webhook_config.py and dispatcher/cache/webhook_repo.py: the
    resolver reads the cached configuration, and on a miss fills the cache and starts again. */
module WebhookConfig {
  import opened TtlCache

  const CONFIG_TTL: real := 600.0

  datatype Config = Config(url: string, secret: string)

  datatype Filling = Filled | Missing | Failed

  datatype Resolved = Found(config: Config) | NotConfigured | Broke | RecursionError

  class Resolver {
    const first: Config
    var cache: State<Config>
    ghost var states: seq<State<Config>>
    ghost var log: seq<Event<Config>>

    ghost predicate Valid()
      reads this
    {
      |states| == |log| + 1 && IsRun(first, CONFIG_TTL, states, log) && states[|log|] == cache
    }

    constructor (c: Config)
      ensures Valid() && first == c && cache == Start(c)
    {
      first, cache := c, Start(c);
      states, log := [Start(c)], [];
    }

    /** One event of the cache. */
    method Perform(e: Event<Config>)
      requires Valid()
      modifies this
      ensures Valid() && cache == Step(old(cache), e, CONFIG_TTL) && old(log) <= log
    {
      hide Step;
      cache := Step(cache, e, CONFIG_TTL);
      states, log := states + [cache], log + [e];
    }

    method Others(fill: nat, pause: real, ghost b: real)
      requires Valid() && 0.0 <= pause && b <= cache.now + CONFIG_TTL
      modifies this
      ensures Valid() && old(log) <= log && SameFill(old(cache), cache, fill)
      ensures old(cache.now) <= cache.now <= old(cache.now) + pause
      ensures (old(Safe(cache, b)) ==> Safe(cache, b)) && (old(Lasting(cache, b)) ==> Lasting(cache, b))
    {
      hide IsRun, Step, Safe, Lasting;
      var k: nat := *;
      var end := cache.now + pause;
      while k > 0
        invariant Valid() && old(log) <= log && SameFill(old(cache), cache, fill)
        invariant old(cache.now) <= cache.now <= end
        invariant (old(Safe(cache, b)) ==> Safe(cache, b)) && (old(Lasting(cache, b)) ==> Lasting(cache, b))
      {
        var e: Event<Config> := *;
        if ByOthers(e, fill) && Step(cache, e, CONFIG_TTL).now <= end {
          OthersKeepFill(cache, e, CONFIG_TTL, fill);
          StepKeepsLasting(cache, e, CONFIG_TTL, b);
          Perform(e);
        }
        k := k - 1;
      }
    }

    /** What the resolver answers was the configured value at some time within the last 600
        seconds and the time two fills take, if no fill takes longer than `l`. */
    ghost predicate Truthful(answer: Resolved, l: real)
      reads this
    {
      answer.Found? && 0.0 <= l && (forall i :: 0 <= i < |states| ==> Timely(states[i], l)) ==>
        exists u :: cache.now - 600.0 - 2.0 * l <= u <= cache.now && Held(cache.history, answer.config, u)
    }

    lemma HitIsTruthful(l: real)
      requires Valid() && Alive(cache)
      ensures Truthful(Found(cache.slot.value), l)
    {
      hide Held, Step;
      if 0.0 <= l && forall i :: 0 <= i < |states| ==> Timely(states[i], l) {
        Staleness(first, CONFIG_TTL, l, states, log);
      }
    }

    /** The lookup, HSET and EXPIRE of one miss; the lookup may find nothing, and each may fail. */
    method FillCache(fill: nat, pause: real) returns (result: Filling)
      requires Valid() && fill !in cache.fills && 0.0 <= pause && !Alive(cache)
      modifies this
      ensures Valid() && old(log) <= log && old(cache.now) <= cache.now
      ensures result.Filled? ==> fill !in cache.fills
      ensures result.Filled? && pause < 200.0 ==> Lasting(cache, cache.now + CONFIG_TTL)
    {
      hide IsRun;
      ghost var b := cache.now + CONFIG_TTL;
      assert Safe(cache, b);
      Others(fill, pause, b);
      result := *;
      if !result.Filled? { return; }
      HistoryIsThere(first, CONFIG_TTL, states, log, |log|);
      Perform(LookUp(fill));
      Others(fill, pause, b);
      Perform(Hset(fill));
      assert Lasting(cache, b);
      Others(fill, pause, b);
      if * { return Failed; }
      Perform(Expire(fill));
    }

    /** get_webhook_config with so many levels of recursion left.  If no await takes 200
        seconds the configuration just filled in is still there, so two levels are enough. */
    method GetWebhookConfig(fill: nat, levels: nat, pause: real, ghost l: real) returns (answer: Resolved, ghost fills: seq<Filling>)
      requires Valid() && fill !in cache.fills && 0.0 <= pause
      modifies this
      decreases levels
      ensures Valid() && old(log) <= log && Truthful(answer, l)
      ensures answer.Found? ==> Alive(cache) && answer.config == cache.slot.value
      ensures |fills| <= levels && (answer.RecursionError? <==> |fills| == levels && forall i :: 0 <= i < |fills| ==> fills[i].Filled?)
      ensures answer.NotConfigured? <==> Missing in fills
      ensures answer.Broke? <==> Failed in fills
      ensures forall i :: 0 <= i < |fills| - 1 ==> fills[i].Filled?
      ensures pause < 200.0 && levels >= 2 ==> answer != RecursionError
      ensures pause < 200.0 && levels >= 1 && old(Lasting(cache, cache.now + CONFIG_TTL)) ==> answer != RecursionError
    {
      hide IsRun, Step, Truthful;
      answer, fills := RecursionError, [];
      if levels > 0 {
        Others(fill, pause, cache.now + CONFIG_TTL);
        if Alive(cache) {
          HitIsTruthful(l);
          return Found(cache.slot.value), [];
        }
        var result := FillCache(fill, pause);
        fills := [result];
        assert fills[0] == result;
        match result
        case Missing => answer := NotConfigured;
        case Failed => answer := Broke;
        case Filled =>
          ghost var more;
          answer, more := GetWebhookConfig(fill, levels - 1, pause, l);
          fills := [Filled] + more;
          assert fills[1..] == more;
          return;
      }
      RaisingIsTruthful(answer, l);
    }

    lemma RaisingIsTruthful(answer: Resolved, l: real)
      requires !answer.Found?
      ensures Truthful(answer, l)
    {
    }
  }
}
