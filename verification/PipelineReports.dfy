/** The failure reports that the workers publish just before they give a message back, and
    what the broker then does with the message, in every run. */
module PipelineReports {
  import opened Broker
  import opened Keys
  import opened Pipeline
  import opened PipelineFrames
  import opened PipelineInvariant

  /** What the broker does with delivery `d` when it comes back. */
  function Fate<T>(q: Queue<T>, d: Delivery): Place
    requires Current(q, d.msg, d.tag)
  {
    Return(q, d.msg, d.tag)[d.msg].place
  }

  lemma ReturnObeysDeliveryCount<T>(q: Queue<T>, d: Delivery)
    requires Sound(q) && Current(q, d.msg, d.tag)
    ensures Fate(q, d) == if LastDelivery(d) then Dead else Ready
  {
    assert SoundMessage(q[d.msg]);
  }

  predicate IsAt<T>(q: Queue<T>, i: nat, place: Place) {
    i < |q| && q[i].place == place
  }

  /** While `d` holds its message, no other handler and no stale tag moves it. */
  lemma StaleTagsAreIgnored<T>(q: Queue<T>, d: Delivery, d2: Delivery)
    requires Current(q, d.msg, d.tag) && d2 != d
    ensures Ack(q, d2.msg, d2.tag)[d.msg] == q[d.msg]
    ensures Discard(q, d2.msg, d2.tag)[d.msg] == q[d.msg]
    ensures Return(q, d2.msg, d2.tag)[d.msg] == q[d.msg]
  {
  }

  /** A delivery that holds its message has held it since it was made. */
  ghost predicate StillHeld<T>(q: Queue<T>, q': Queue<T>, d: Delivery) {
    d.msg < |q| && d.tag <= q[d.msg].deliveries && Current(q', d.msg, d.tag) ==> Current(q, d.msg, d.tag)
  }

  lemma QueueMovesHold<T>(q: Queue<T>, d: Delivery, d2: Delivery)
    ensures StillHeld(q, Ack(q, d2.msg, d2.tag), d)
    ensures StillHeld(q, Discard(q, d2.msg, d2.tag), d)
    ensures StillHeld(q, Return(q, d2.msg, d2.tag), d)
    ensures Waiting(q, d2.msg) ==> StillHeld(q, Deliver(q, d2.msg), d)
    ensures StillHeld(q, q, d)
  {
  }

  lemma LongerQueueHolds<T>(q: Queue<T>, q': Queue<T>, d: Delivery)
    requires q <= q'
    ensures StillHeld(q, q', d)
  {
  }

  /***** The scanner *****/

  /** Nothing but a return can still come of delivery `d`: its handler has published this
      report, or is gone. */
  ghost predicate Reporting(s: State, d: Delivery, report: Report) {
    d in s.scans ==> s.scans[d].pc == Reported(report)
  }

  lemma ReportedLeaves(s: State, d: Delivery, a: ScanAction)
    requires d in s.scans && s.scans[d].pc.Reported? && !a.TakeScan? && !a.CrashScan?
    ensures var s' := ScanStep(s, d, a);
      s' == s || (d !in s'.scans && s'.scanQueue == Return(s.scanQueue, d.msg, d.tag))
  {
    hide ReadStep, JudgeStep, QuarantineStep, PassStep, Return, Ack, Discard, SetStatus, ReportFor;
  }

  lemma ReportingStays(s: State, e: Event, d: Delivery, report: Report)
    requires Current(s.scanQueue, d.msg, d.tag) && Reporting(s, d, report)
    ensures Reporting(Step(s, e), d, report)
  {
    hide UploadStep, ImageStep, ScanBody, ScanTail, Deliver;
    if e.OfScan? && e.delivery == d {
      if d in s.scans && !e.scan.TakeScan? && !e.scan.CrashScan? { ReportedLeaves(s, d, e.scan); }
    } else {
      OthersAreLocal(s, e, Scanner(d));
    }
  }

  lemma ScanHolds(s: State, e: Event, d: Delivery)
    ensures StillHeld(s.scanQueue, Step(s, e).scanQueue, d)
  {
    hide UploadStep, ImageStep, ScanBody, ScanTail, StillHeld, Deliver, Ack, Discard, Return;
    QueueMovesHold(s.scanQueue, d, d);
    match e
    case OfRequest(u, a) => UploadFrame(s, u, a); LongerQueueHolds(s.scanQueue, Step(s, e).scanQueue, d);
    case OfScan(d2, a) =>
      QueueMovesHold(s.scanQueue, d, d2);
      if d2 in s.scans && !a.TakeScan? && !a.CrashScan? { ScanFrame(s, d2, a, 0); }
    case OfImage(d2, a) => ImageFrame(s, d2, a);
    case LoseScan(d2) => QueueMovesHold(s.scanQueue, d, d2);
    case LoseImage(_) =>
  }

  lemma OnlyReturnedByScan(s: State, d2: Delivery, a: ScanAction, d: Delivery)
    requires Current(s.scanQueue, d.msg, d.tag) && (d in s.scans ==> s.scans[d].pc.Reported?)
    ensures IsAt(ScanStep(s, d2, a).scanQueue, d.msg, Held) || ScanStep(s, d2, a).scanQueue == Return(s.scanQueue, d.msg, d.tag)
  {
    hide ScanBody, ScanTail;
    if d2 != d {
      StaleTagsAreIgnored(s.scanQueue, d, d2);
    }
    if d2 in s.scans && !a.TakeScan? && !a.CrashScan? {
      ScanFrame(s, d2, a, 0);
      if d2 == d { ReportedLeaves(s, d, a); }
    }
  }

  lemma OnlyReturned(s: State, e: Event, d: Delivery)
    requires Current(s.scanQueue, d.msg, d.tag) && (d in s.scans ==> s.scans[d].pc.Reported?)
    requires !IsAt(Step(s, e).scanQueue, d.msg, Held)
    ensures Step(s, e).scanQueue == Return(s.scanQueue, d.msg, d.tag)
  {
    hide UploadStep, ScanStep, ImageStep;
    match e
    case OfRequest(u, a) => UploadFrame(s, u, a);
    case OfScan(d2, a) => OnlyReturnedByScan(s, d2, a, d);
    case OfImage(d2, a) => ImageFrame(s, d2, a);
    case LoseScan(d2) => if d2 != d { StaleTagsAreIgnored(s.scanQueue, d, d2); }
    case LoseImage(_) =>
  }

  lemma {:induction false} ReportingLasts(states: seq<State>, log: seq<Event>, m: nat, n: nat, d: Delivery)
    requires IsRun(states, log) && m <= n <= |log|
    requires d in states[m].scans && states[m].scans[d].pc.Reported? && Current(states[n].scanQueue, d.msg, d.tag)
    ensures Reporting(states[n], d, states[m].scans[d].pc.report)
  {
    hide Step, Inv;
    if m < n {
      RunKeeps(states, log, m);
      ScanIsDelivered(states[m], d);
      RunGrows(states, log, m, n - 1);
      assert states[n - 1 + 1] == Step(states[n - 1], log[n - 1]);
      ScanHolds(states[n - 1], log[n - 1], d);
      ReportingLasts(states, log, m, n - 1, d);
      ReportingStays(states[n - 1], log[n - 1], d, states[m].scans[d].pc.report);
    }
  }

  lemma ScanIsDelivered(s: State, d: Delivery)
    requires Inv(s) && d in s.scans
    ensures d.msg < |s.scanQueue| && d.tag <= s.scanQueue[d.msg].deliveries
  {
    ScanOf(s, d);
  }

  /** What a report says is decided by the delivery count. */
  lemma ReportMeans(s: State, d: Delivery)
    requires Inv(s) && d in s.scans && s.scans[d].pc.Reported?
    ensures s.scans[d].pc.report.SaysDeadLetter? ==> LastDelivery(d)
    ensures s.scans[d].pc.report.SaysRetry? ==> !LastDelivery(d)
  {
    ScanOf(s, d);
  }

  /** Once a worker has published its failure report, its message goes where the report says,
      whether the worker still gives it back itself or dies first; with one exception.  The
      report of a dropped clamd connection says "queued_for_retry" whatever the delivery count,
      and is true if and only if this was not the last delivery. */
  lemma ScanReportsComeTrue(states: seq<State>, log: seq<Event>, m: nat, n: nat, d: Delivery)
    requires IsRun(states, log) && m <= n < |log|
    requires d in states[m].scans && states[m].scans[d].pc.Reported?
    requires Current(states[n].scanQueue, d.msg, d.tag) && !IsAt(states[n + 1].scanQueue, d.msg, Held)
    ensures var q' := states[n + 1].scanQueue;
      match states[m].scans[d].pc.report
      case SaysDeadLetter => IsAt(q', d.msg, Dead)
      case SaysRetry => IsAt(q', d.msg, Ready)
      case SaysQueued => IsAt(q', d.msg, Ready) <==> !LastDelivery(d)
  {
    hide Step, Inv, LastDelivery;
    RunKeeps(states, log, m);
    ReportMeans(states[m], d);
    RunKeeps(states, log, n);
    Facts(states[n]);
    ReportingLasts(states, log, m, n, d);
    ReturnObeysDeliveryCount(states[n].scanQueue, d);
    OnlyReturned(states[n], log[n], d);
  }

  /***** The image worker *****/

  ghost predicate Telling(s: State, d: Delivery, report: Report) {
    d in s.images ==> s.images[d].pc == Told(report)
  }

  lemma ToldLeaves(s: State, d: Delivery, a: ImageAction)
    requires d in s.images && s.images[d].pc.Told? && !a.TakeImage? && !a.CrashImage?
    ensures var s' := ImageStep(s, d, a);
      s' == s || (d !in s'.images && s'.imageQueue == Return(s.imageQueue, d.msg, d.tag))
  {
    hide ImageBody, Return, Ack;
  }

  lemma TellingStays(s: State, e: Event, d: Delivery, report: Report)
    requires Current(s.imageQueue, d.msg, d.tag) && Telling(s, d, report)
    ensures Telling(Step(s, e), d, report)
  {
    hide UploadStep, ScanStep, ImageBody, ImageTail, Deliver;
    if e.OfImage? && e.delivery == d {
      if d in s.images && !e.image.TakeImage? && !e.image.CrashImage? { ToldLeaves(s, d, e.image); }
    } else {
      OthersAreLocal(s, e, Imager(d));
    }
  }

  lemma ImageHolds(s: State, e: Event, d: Delivery)
    ensures StillHeld(s.imageQueue, Step(s, e).imageQueue, d)
  {
    hide UploadStep, ScanBody, ScanTail, ImageBody, ImageTail, StillHeld, Deliver, Ack, Discard, Return, Publish;
    QueueMovesHold(s.imageQueue, d, d);
    match e
    case OfRequest(u, a) => UploadFrame(s, u, a);
    case OfScan(d2, a) =>
      if d2 in s.scans && !a.TakeScan? && !a.CrashScan? {
        ScanFrame(s, d2, a, 0);
        PublishedIsLonger(s.imageQueue, ImageTask(s.scans[d2].task, d2));
        LongerQueueHolds(s.imageQueue, Publish(s.imageQueue, ImageTask(s.scans[d2].task, d2)), d);
      }
    case OfImage(d2, a) =>
      QueueMovesHold(s.imageQueue, d, d2);
      ImageFrame(s, d2, a);
    case LoseScan(_) =>
    case LoseImage(d2) => QueueMovesHold(s.imageQueue, d, d2);
  }

  lemma PublishedIsLonger<T>(q: Queue<T>, body: T)
    ensures q <= Publish(q, body)
  {
  }

  lemma OnlyReturnedByImage(s: State, d2: Delivery, a: ImageAction, d: Delivery)
    requires Current(s.imageQueue, d.msg, d.tag) && (d in s.images ==> s.images[d].pc.Told?)
    ensures IsAt(ImageStep(s, d2, a).imageQueue, d.msg, Held) || ImageStep(s, d2, a).imageQueue == Return(s.imageQueue, d.msg, d.tag)
  {
    hide ImageBody, ImageTail;
    if d2 != d {
      StaleTagsAreIgnored(s.imageQueue, d, d2);
    }
    ImageFrame(s, d2, a);
  }

  lemma OnlyReturnedImage(s: State, e: Event, d: Delivery)
    requires Current(s.imageQueue, d.msg, d.tag) && (d in s.images ==> s.images[d].pc.Told?)
    requires !IsAt(Step(s, e).imageQueue, d.msg, Held)
    ensures Step(s, e).imageQueue == Return(s.imageQueue, d.msg, d.tag)
  {
    hide UploadStep, ScanBody, ScanTail, ImageStep;
    match e
    case OfRequest(u, a) => UploadFrame(s, u, a);
    case OfScan(d2, a) => if d2 in s.scans && !a.TakeScan? && !a.CrashScan? { ScanFrame(s, d2, a, 0); }
    case OfImage(d2, a) => OnlyReturnedByImage(s, d2, a, d);
    case LoseScan(_) =>
    case LoseImage(d2) => if d2 != d { StaleTagsAreIgnored(s.imageQueue, d, d2); }
  }

  lemma {:induction false} TellingLasts(states: seq<State>, log: seq<Event>, m: nat, n: nat, d: Delivery)
    requires IsRun(states, log) && m <= n <= |log|
    requires d in states[m].images && states[m].images[d].pc.Told? && Current(states[n].imageQueue, d.msg, d.tag)
    ensures Telling(states[n], d, states[m].images[d].pc.report)
  {
    hide Step, Inv;
    if m < n {
      RunKeeps(states, log, m);
      ImageIsDelivered(states[m], d);
      RunGrows(states, log, m, n - 1);
      assert states[n - 1 + 1] == Step(states[n - 1], log[n - 1]);
      ImageHolds(states[n - 1], log[n - 1], d);
      TellingLasts(states, log, m, n - 1, d);
      TellingStays(states[n - 1], log[n - 1], d, states[m].images[d].pc.report);
    }
  }

  lemma ImageIsDelivered(s: State, d: Delivery)
    requires Inv(s) && d in s.images
    ensures d.msg < |s.imageQueue| && d.tag <= s.imageQueue[d.msg].deliveries
    ensures s.images[d].pc.Told? ==> (s.images[d].pc.report.SaysDeadLetter? <==> LastDelivery(d))
  {
    ImageOf(s, d);
  }

  lemma ImageReportsComeTrue(states: seq<State>, log: seq<Event>, m: nat, n: nat, d: Delivery)
    requires IsRun(states, log) && m <= n < |log|
    requires d in states[m].images && states[m].images[d].pc.Told?
    requires Current(states[n].imageQueue, d.msg, d.tag) && !IsAt(states[n + 1].imageQueue, d.msg, Held)
    ensures IsAt(states[n + 1].imageQueue, d.msg, if states[m].images[d].pc.report.SaysDeadLetter? then Dead else Ready)
  {
    hide Step, Inv, LastDelivery;
    RunKeeps(states, log, m);
    ImageIsDelivered(states[m], d);
    RunKeeps(states, log, n);
    Facts(states[n]);
    TellingLasts(states, log, m, n, d);
    ReturnObeysDeliveryCount(states[n].imageQueue, d);
    OnlyReturnedImage(states[n], log[n], d);
  }
}
