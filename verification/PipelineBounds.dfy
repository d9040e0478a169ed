/** How much work one upload can cause.  A scan task is delivered at most four times,
    publishes at most four image tasks, and these are delivered at most sixteen times,
    whatever crashes, whatever connection is lost and however handlers interleave. */
module PipelineBounds {
  import opened Broker
  import opened Keys
  import opened Pipeline
  import opened PipelineFrames
  import opened PipelineInvariant
  import opened PipelineTheorems

  ghost predicate FromDelivery(s: State, t: ImageTask) {
    && t.source.msg < |s.scanQueue| && s.scanQueue[t.source.msg].body == t.task
    && 1 <= t.source.tag <= s.scanQueue[t.source.msg].deliveries
  }

  /** Each image task comes from a scan delivery of its own. */
  ghost predicate Lineage(s: State) {
    && (forall i | 0 <= i < |s.imageQueue| :: FromDelivery(s, s.imageQueue[i].body))
    && (forall i, k | 0 <= i < k < |s.imageQueue| :: s.imageQueue[i].body.source != s.imageQueue[k].body.source)
    && (forall d, i | d in s.scans && Unforwarded(s.scans[d].pc) && 0 <= i < |s.imageQueue| :: s.imageQueue[i].body.source != d)
  }

  ghost predicate SameBodies<T(!new)>(q: Queue<T>, q': Queue<T>) {
    |q'| == |q| && forall i | 0 <= i < |q| :: q'[i].body == q[i].body
  }

  /** Either no image task is published, or exactly one, by the delivery `d` that was
      free to do so and is not any more. */
  ghost predicate Publishes(s: State, s': State) {
    || SameBodies(s.imageQueue, s'.imageQueue)
    || exists d | d in s.scans && Unforwarded(s.scans[d].pc) && d in s'.scans && !Unforwarded(s'.scans[d].pc) ::
         s'.imageQueue == Publish(s.imageQueue, ImageTask(s.scans[d].task, d))
  }

  /** No handler becomes free to publish again, except a new delivery. */
  ghost predicate Advances(s: State, s': State) {
    forall d | d in s'.scans && Unforwarded(s'.scans[d].pc) ::
      || (d in s.scans && Unforwarded(s.scans[d].pc))
      || (d.msg < |s.scanQueue| && d.tag == s.scanQueue[d.msg].deliveries + 1)
  }

  lemma ScanAdvances(s: State, d: Delivery, a: ScanAction)
    ensures var s' := ScanStep(s, d, a); Publishes(s, s') && Advances(s, s')
  {
    hide ScanBody, ScanTail;
    var s' := ScanStep(s, d, a);
    if d in s.scans && !a.TakeScan? && !a.CrashScan? {
      ScanFrame(s, d, a, 0);
      hide ScanStep, Publish;
      if s'.imageQueue != s.imageQueue {
        assert Unforwarded(s.scans[d].pc) && d in s'.scans && !Unforwarded(s'.scans[d].pc);
      }
    }
  }

  lemma ImageAdvances(s: State, d: Delivery, a: ImageAction)
    ensures SameBodies(s.imageQueue, ImageStep(s, d, a).imageQueue)
  {
    if d in s.images && !a.TakeImage? {
      hide ImageStep;
      ImageFrame(s, d, a);
    }
  }

  lemma StepAdvances(s: State, e: Event)
    ensures Publishes(s, Step(s, e)) && Advances(s, Step(s, e))
  {
    hide UploadStep, ScanStep, ImageStep;
    match e
    case OfRequest(u, a) => UploadFrame(s, u, a);
    case OfScan(d, a) => ScanAdvances(s, d, a);
    case OfImage(d, a) => ImageFrame(s, d, a); ImageAdvances(s, d, a);
    case LoseScan(_) =>
    case LoseImage(_) =>
  }

  lemma LineageKept(s: State, s': State)
    requires Lineage(s) && Grows(s, s') && Publishes(s, s') && Advances(s, s')
    requires forall d | d in s.scans :: ScanOk(s, d, s.scans[d])
    ensures Lineage(s')
  {
    OffspringKept(s, s');
    forall d, i | d in s'.scans && Unforwarded(s'.scans[d].pc) && 0 <= i < |s'.imageQueue|
      ensures s'.imageQueue[i].body.source != d
    {
      if i < |s.imageQueue| { assert FromDelivery(s, s.imageQueue[i].body); }
    }
  }

  lemma OffspringKept(s: State, s': State)
    requires Lineage(s) && Grows(s, s') && Publishes(s, s')
    requires forall d | d in s.scans :: ScanOk(s, d, s.scans[d])
    ensures forall i | 0 <= i < |s'.imageQueue| :: FromDelivery(s', s'.imageQueue[i].body)
    ensures forall i, k | 0 <= i < k < |s'.imageQueue| :: s'.imageQueue[i].body.source != s'.imageQueue[k].body.source
  {
    var n := |s.imageQueue|;
    forall i | 0 <= i < n ensures FromDelivery(s', s'.imageQueue[i].body) && s'.imageQueue[i].body == s.imageQueue[i].body {
      assert FromDelivery(s, s.imageQueue[i].body);
    }
    if !SameBodies(s.imageQueue, s'.imageQueue) {
      var d :| d in s.scans && Unforwarded(s.scans[d].pc) && d in s'.scans && !Unforwarded(s'.scans[d].pc)
               && s'.imageQueue == Publish(s.imageQueue, ImageTask(s.scans[d].task, d));
      assert ScanOk(s, d, s.scans[d]);
      assert FromDelivery(s', s'.imageQueue[n].body);
    }
  }

  lemma {:induction false} RunLineage(states: seq<State>, log: seq<Event>, n: nat)
    requires IsRun(states, log) && n <= |log|
    ensures Lineage(states[n])
  {
    if n > 0 {
      var s, s' := states[n - 1], states[n];
      RunLineage(states, log, n - 1);
      RunKeeps(states, log, n - 1);
      StepKeeps(s, log[n - 1]);
      StepAdvances(s, log[n - 1]);
      forall d | d in s.scans ensures ScanOk(s, d, s.scans[d]) { ScanOf(s, d); }
      hide Step, Inv;
      LineageKept(s, s');
    }
  }

  /***** Counting *****/

  /** The image tasks published for scan task `m`. */
  ghost function Offspring(q: Queue<ImageTask>, m: nat): set<nat> {
    set i: nat | i < |q| && q[i].body.source.msg == m
  }

  /** The deliveries made of the image tasks of scan task `m`. */
  function ImageDeliveries(q: Queue<ImageTask>, m: nat): nat {
    if q == [] then 0
    else ImageDeliveries(q[..|q| - 1], m) + if q[|q| - 1].body.source.msg == m then q[|q| - 1].deliveries else 0
  }

  /** A set whose members carry different labels from 1 to `n` has at most `n` members. */
  lemma {:induction false} Pigeonhole(items: set<nat>, mark: map<nat, nat>, n: nat)
    requires items <= mark.Keys
    requires forall i | i in items :: 1 <= mark[i] <= n
    requires forall i, k | i in items && k in items && i != k :: mark[i] != mark[k]
    ensures |items| <= n
  {
    if i :| i in items && mark[i] == n {
      Pigeonhole(items - {i}, mark, n - 1);
    } else if n > 0 {
      Pigeonhole(items, mark, n - 1);
    } else {
      assert items == {};
    }
  }

  lemma {:induction false} DeliveriesOfOffspring(q: Queue<ImageTask>, m: nat)
    requires Sound(q)
    ensures ImageDeliveries(q, m) <= (DELIVERY_LIMIT + 1) * |Offspring(q, m)|
  {
    if q != [] {
      var n := |q| - 1;
      DeliveriesOfOffspring(q[..n], m);
      assert SoundMessage(q[n]);
      if q[n].body.source.msg == m {
        assert Offspring(q, m) == Offspring(q[..n], m) + {n};
      } else {
        assert Offspring(q, m) == Offspring(q[..n], m);
      }
    }
  }

  /** The work of one scan task, in every state of every run. */
  lemma WorkIsBounded(states: seq<State>, log: seq<Event>, n: nat, m: nat)
    requires IsRun(states, log) && n <= |log| && m < |states[n].scanQueue|
    ensures var s := states[n];
      && s.scanQueue[m].deliveries <= 4
      && |Offspring(s.imageQueue, m)| <= s.scanQueue[m].deliveries
      && ImageDeliveries(s.imageQueue, m) <= 16
  {
    RunKeeps(states, log, n);
    RunLineage(states, log, n);
    var s := states[n];
    Facts(s);
    hide Inv, Step;
    assert SoundMessage(s.scanQueue[m]);
    var mark := map i: nat | i < |s.imageQueue| :: s.imageQueue[i].body.source.tag;
    forall i | i in Offspring(s.imageQueue, m) ensures 1 <= mark[i] <= s.scanQueue[m].deliveries {
      assert FromDelivery(s, s.imageQueue[i].body);
    }
    Pigeonhole(Offspring(s.imageQueue, m), mark, s.scanQueue[m].deliveries);
    DeliveriesOfOffspring(s.imageQueue, m);
  }
}
