/** Which content is rendered.  The scanner reads an object, and when its verdict has let the
    job through the image worker reads the object again; in between, another upload with the
    same key may have stored other content.

    The machine keeps keys, not contents.  The content of an object is what the last event
    that stored it wrote, so a run is given with the content that each of its events writes. */
module PipelineContent {
  import opened Wrappers
  import opened Broker
  import opened Keys
  import opened Pipeline
  import opened PipelineFrames
  import opened PipelineInvariant

  /***** The events that matter *****/

  /** `e` stores an object under `key`. */
  ghost predicate Stores(s: State, e: Event, key: Key) {
    && e.OfRequest? && e.upload.Store? && e.request in s.requests
    && s.requests[e.request].pc.Checked? && KeyOf(s.requests[e.request]) == key
  }

  /** The scan of delivery `d` reads the object of task `t`. */
  ghost predicate Spools(s: State, e: Event, d: Delivery, t: Task) {
    e == OfScan(d, Spool) && d in s.scans && s.scans[d].pc.Located? && s.scans[d].task == t && t.key in s.uploads
  }

  /** The scan of delivery `d` answers OK. */
  ghost predicate Passes(s: State, e: Event, d: Delivery, t: Task) {
    e == OfScan(d, Judge(Ok)) && d in s.scans && s.scans[d].pc.Spooled? && s.scans[d].task == t
  }

  /** The image worker reads the object of task `t` for its delivery `d`. */
  ghost predicate Fetches(s: State, e: Event, d: Delivery, t: Task) {
    e == OfImage(d, Fetch) && d in s.images && s.images[d].pc.Working? && s.images[d].task == t && t.key in s.uploads
  }

  /** The scan of delivery `d` deletes the object of task `t` from the uploads bucket. */
  ghost predicate Removes(s: State, e: Event, s': State, d: Delivery, t: Task) {
    e == OfScan(d, Delete) && d in s.scans && s.scans[d].pc.Verified? && s.scans[d].task == t && t.key !in s'.uploads
  }

  /***** What one event adds *****/

  predicate Cleared(pc: ScanPc) { pc == Judged(Ok) || pc == Recorded(Ok) }

  predicate Removed(pc: ScanPc) { pc.Deleted? || pc.Sealed? }

  /** The handler of `d` is behind its read, its verdict or its deletion only if it was so before
      the event, or the event was that read, verdict or deletion. */
  ghost predicate Explained(s: State, e: Event, s': State, d: Delivery) {
    d in s'.scans ==>
      if d in s.scans then
        var t := s.scans[d].task;
        && s'.scans[d].task == t
        && (s'.scans[d].pc.Spooled? ==> s.scans[d].pc.Spooled? || Spools(s, e, d, t))
        && (Cleared(s'.scans[d].pc) ==> Cleared(s.scans[d].pc) || Passes(s, e, d, t))
        && (Removed(s'.scans[d].pc) ==> Removed(s.scans[d].pc) || Removes(s, e, s', d, t))
      else Plain(s'.scans[d].pc)
  }

  /** A quarantine webhook that is new comes from delivery `d`, which has deleted its object. */
  ghost predicate Announced(s: State, notices: seq<Notice>, d: Delivery) {
    forall n | n in notices && n.event.JobQuarantined? ::
      n in s.notices || (n.source == d && d in s.scans && Removed(s.scans[d].pc) && n.job == s.scans[d].task.job)
  }

  /** And a scan adds nothing to the bucket, and no other quarantine webhook. */
  ghost predicate AddsNothing(s: State, e: Event, s': State, d: Delivery) {
    s'.uploads <= s.uploads && Announced(s, s'.notices, d) && Explained(s, e, s', d)
  }

  /** Neither after a read nor after a verdict nor after a deletion. */
  predicate Plain(pc: ScanPc) { !pc.Spooled? && !Cleared(pc) && !Removed(pc) }

  lemma PutIsPlain(s: State, e: Event, d: Delivery, x: Scan, u: set<Key>, q: set<Key>, f: map<FileId, FileRow>, j: map<JobId, JobRow>, n: seq<Notice>)
    requires d in s.scans && x.task == s.scans[d].task && u <= s.uploads && Announced(s, n, d)
    requires Plain(x.pc) || (x.pc.Sealed? && Removed(s.scans[d].pc))
    ensures AddsNothing(s, e, Put(s, d, x, u, q, f, j, n), d)
  {
    hide Spools, Passes, Announced;
  }

  lemma NoNews(s: State, d: Delivery)
    ensures Announced(s, s.notices, d)
    ensures forall n: Notice | !n.event.JobQuarantined? :: Announced(s, s.notices + [n], d)
    ensures d in s.scans && Removed(s.scans[d].pc) ==> Announced(s, s.notices + [Notice(JobQuarantined, s.scans[d].task.job, d)], d)
  {
  }

  lemma AtIsPlain(s: State, e: Event, d: Delivery, x: Scan)
    requires d in s.scans && x.task == s.scans[d].task && Plain(x.pc)
    ensures AddsNothing(s, e, At(s, d, x), d)
  {
    hide Spools, Passes;
  }

  lemma IdleAddsNothing(s: State, e: Event, d: Delivery)
    ensures AddsNothing(s, e, s, d)
  {
    hide Spools, Passes;
  }

  lemma ReadExplained(s: State, d: Delivery, a: ScanAction)
    requires d in s.scans
    ensures AddsNothing(s, OfScan(d, a), ReadStep(s, d, s.scans[d], a), d)
  {
    hide AddsNothing, Announced, SetStatus, Matches;
    var x, e := s.scans[d], OfScan(d, a);
    var j := x.task.job;
    NoNews(s, d);
    IdleAddsNothing(s, e, d);
    match a
    case LoadJob =>
      if j in s.jobs { AtIsPlain(s, e, d, x.(seen := s.jobs[j].status, pc := Loaded)); }
      AtIsPlain(s, e, d, x.(pc := NoJob));
    case MarkScanning =>
      PutIsPlain(s, e, d, x.(seen := Scanning, pc := Marked), s.uploads, s.quarantine, s.files, SetStatus(s.jobs, j, x.seen, Scanning), s.notices);
    case Locate(f) =>
      if f in s.files { AtIsPlain(s, e, d, x.(file := f, bucket := s.files[f].bucket, pc := Located)); }
      AtIsPlain(s, e, d, x.(pc := Raised(Other)));
    case _ =>
  }

  lemma SpoolExplained(s: State, d: Delivery)
    requires d in s.scans
    ensures AddsNothing(s, OfScan(d, Spool), JudgeStep(s, d, s.scans[d], Spool), d)
  {
    hide SetStatus;
  }

  lemma VerdictExplained(s: State, d: Delivery, v: Verdict)
    requires d in s.scans
    ensures AddsNothing(s, OfScan(d, Judge(v)), JudgeStep(s, d, s.scans[d], Judge(v)), d)
  {
    hide SetStatus;
  }

  lemma RecordExplained(s: State, d: Delivery)
    requires d in s.scans
    ensures AddsNothing(s, OfScan(d, Record), JudgeStep(s, d, s.scans[d], Record), d)
  {
    hide SetStatus, Spools, Passes;
  }

  lemma DeleteExplained(s: State, d: Delivery)
    requires d in s.scans
    ensures AddsNothing(s, OfScan(d, Delete), QuarantineStep(s, d, s.scans[d], Delete), d)
  {
    hide Spools, Passes, SetStatus, SetBucket;
  }

  lemma QuarantineExplained(s: State, d: Delivery, a: ScanAction)
    requires d in s.scans
    ensures AddsNothing(s, OfScan(d, a), QuarantineStep(s, d, s.scans[d], a), d)
  {
    hide AddsNothing, Announced, SetStatus, SetBucket;
    var x, e := s.scans[d], OfScan(d, a);
    var j, key := x.task.job, x.task.key;
    NoNews(s, d);
    IdleAddsNothing(s, e, d);
    AtIsPlain(s, e, d, x.(pc := Raised(Other)));
    match a
    case Copy => PutIsPlain(s, e, d, x.(pc := Copied), s.uploads, s.quarantine + {key}, s.files, s.jobs, s.notices);
    case Head => AtIsPlain(s, e, d, x.(pc := Verified));
    case Delete => DeleteExplained(s, d);
    case Seal =>
      if x.pc.Deleted? {
        PutIsPlain(s, e, d, x.(seen := Quarantined, bucket := Quarantine, pc := Sealed), s.uploads, s.quarantine,
                   SetBucket(s.files, x.file, x.bucket, Quarantine), SetStatus(s.jobs, j, x.seen, Quarantined), s.notices);
      }
    case NoticeQuarantined =>
      if x.pc.Sealed? {
        PutIsPlain(s, e, d, x.(pc := Ending), s.uploads, s.quarantine, s.files, s.jobs, s.notices + [Notice(JobQuarantined, j, d)]);
      }
    case _ =>
  }

  lemma PublishIsPlain(s: State, e: Event, d: Delivery, x: Scan, q: Queue<ImageTask>)
    requires d in s.scans && x.task == s.scans[d].task && Plain(x.pc)
    ensures AddsNothing(s, e, At(s, d, x).(imageQueue := q), d)
  {
    hide Spools, Passes;
  }

  lemma PassExplained(s: State, d: Delivery, a: ScanAction)
    requires d in s.scans
    ensures AddsNothing(s, OfScan(d, a), PassStep(s, d, s.scans[d], a), d)
  {
    hide AddsNothing, Announced, SetStatus, KindOf, Publish;
    var x, e := s.scans[d], OfScan(d, a);
    var j := x.task.job;
    NoNews(s, d);
    IdleAddsNothing(s, e, d);
    match a
    case Forward => PublishIsPlain(s, e, d, x.(pc := Forwarded), Publish(s.imageQueue, ImageTask(x.task, d)));
    case EndScan => AtIsPlain(s, e, d, x.(pc := Ending));
    case Complete =>
      PutIsPlain(s, e, d, x.(seen := Completed, pc := Finished), s.uploads, s.quarantine, s.files, SetStatus(s.jobs, j, x.seen, Completed), s.notices);
    case NoticeCompleted =>
      PutIsPlain(s, e, d, x.(pc := Ending), s.uploads, s.quarantine, s.files, s.jobs, s.notices + [Notice(JobCompleted, j, d)]);
    case Throw(why) => AtIsPlain(s, e, d, x.(pc := Raised(why)));
    case _ =>
  }

  lemma HandleExplained(s: State, d: Delivery, a: ScanAction)
    requires d in s.scans
    ensures AddsNothing(s, OfScan(d, a), HandleStep(s, d, s.scans[d], a), d)
  {
    hide AddsNothing, Announced, SetStatus, MayReport, ReportFor, LastDelivery;
    var x, e := s.scans[d], OfScan(d, a);
    NoNews(s, d);
    IdleAddsNothing(s, e, d);
    match a
    case Rescue(saved) =>
      AtIsPlain(s, e, d, x.(pc := Failing(Other)));
      if x.pc.Raised? {
        var st := if x.pc.failure.ConnectionDropped? then QueuedForRetry else Failed;
        PutIsPlain(s, e, d, x.(seen := st, pc := Failing(x.pc.failure)), s.uploads, s.quarantine, s.files, SetStatus(s.jobs, x.task.job, x.seen, st), s.notices);
      }
    case NoticeFailed =>
      PutIsPlain(s, e, d, x.(pc := Noticed), s.uploads, s.quarantine, s.files, s.jobs, s.notices + [Notice(JobFailed, x.task.job, d)]);
    case Report => if MayReport(x.pc, d) { AtIsPlain(s, e, d, x.(pc := Reported(ReportFor(x.pc)))); }
    case _ =>
  }

  lemma SettleExplained(s: State, d: Delivery, a: ScanAction)
    requires d in s.scans
    ensures AddsNothing(s, OfScan(d, a), SettleStep(s, d, s.scans[d], a), d)
  {
    hide Spools, Passes, Ack, Discard, Return;
  }

  lemma OwnScanExplained(s: State, d: Delivery, a: ScanAction)
    requires d in s.scans && !a.TakeScan? && !a.CrashScan?
    ensures AddsNothing(s, OfScan(d, a), ScanStep(s, d, a), d)
  {
    hide ReadStep, JudgeStep, QuarantineStep, PassStep, HandleStep, SettleStep, AddsNothing;
    ReadExplained(s, d, a);
    match a {
      case Spool => SpoolExplained(s, d);
      case Judge(v) => VerdictExplained(s, d, v);
      case Record => RecordExplained(s, d);
      case _ =>
    }
    QuarantineExplained(s, d, a);
    PassExplained(s, d, a);
    HandleExplained(s, d, a);
    SettleExplained(s, d, a);
  }

  /** Whatever the event, the handler of `d` is explained. */
  lemma StepExplains(s: State, e: Event, d: Delivery)
    ensures Explained(s, e, Step(s, e), d)
  {
    hide UploadStep, ImageStep, ScanBody, ScanTail, Spools, Passes, Deliver, Waiting;
    if e.OfScan? && e.delivery == d {
      if d in s.scans && !e.scan.TakeScan? && !e.scan.CrashScan? { OwnScanExplained(s, d, e.scan); }
    } else {
      hide Step;
      OthersAreLocal(s, e, Scanner(d));
    }
  }

  lemma UploadsOnlyStore(s: State, u: nat, a: UploadAction, key: Key)
    requires key in UploadStep(s, u, a).uploads
    ensures key in s.uploads || Stores(s, OfRequest(u, a), key)
  {
    hide KeyOf, Blocks, EarlierJobs, WellFormed, Publish;
  }

  lemma OnlyStoresAdd(s: State, e: Event, key: Key)
    requires key in Step(s, e).uploads
    ensures key in s.uploads || Stores(s, e, key)
  {
    hide Stores, UploadStep, ScanBody, ScanTail, ImageStep, Explained, Deliver, Waiting, Return;
    match e
    case OfRequest(u, a) => UploadsOnlyStore(s, u, a, key);
    case OfScan(d, a) => if d in s.scans && !a.TakeScan? && !a.CrashScan? { OwnScanExplained(s, d, a); }
    case OfImage(d, a) => ImageFrame(s, d, a);
    case LoseScan(_) =>
    case LoseImage(_) =>
  }

  /** An image task that is new was published by a scan that had been answered OK. */
  lemma NewImageTasks(s: State, e: Event, k: nat)
    requires k < |Step(s, e).imageQueue|
    ensures var b := Step(s, e).imageQueue[k].body;
      || (k < |s.imageQueue| && b == s.imageQueue[k].body)
      || (b.source in s.scans && s.scans[b.source].pc == Recorded(Ok) && s.scans[b.source].task == b.task)
  {
    hide UploadStep, ScanBody, ScanTail, ImageBody, ImageTail;
    match e
    case OfRequest(u, a) => UploadFrame(s, u, a);
    case OfScan(d, a) => if d in s.scans && !a.TakeScan? && !a.CrashScan? { ScanFrame(s, d, a, 0); }
    case OfImage(d, a) => ImageFrame(s, d, a);
    case LoseScan(_) =>
    case LoseImage(_) =>
  }

  /***** Over a run *****/

  ghost predicate HasRead(states: seq<State>, log: seq<Event>, n: nat, d: Delivery, t: Task)
    requires |states| == |log| + 1 && n <= |log|
  {
    exists i: nat {:trigger Spools(states[i], log[i], d, t)} :: i < n && Spools(states[i], log[i], d, t)
  }

  /** Delivery `d` read the object of `t` at `i`, and answered OK at `j`. */
  ghost predicate Vets(states: seq<State>, log: seq<Event>, i: nat, j: nat, d: Delivery, t: Task)
    requires |states| == |log| + 1
  {
    i < j < |log| && Spools(states[i], log[i], d, t) && Passes(states[j], log[j], d, t)
  }

  ghost predicate Vetted(states: seq<State>, log: seq<Event>, n: nat, d: Delivery, t: Task)
    requires |states| == |log| + 1 && n <= |log|
  {
    exists i: nat, j: nat :: j < n && Vets(states, log, i, j, d, t)
  }

  lemma VettedStays(states: seq<State>, log: seq<Event>, n: nat, m: nat, d: Delivery, t: Task)
    requires |states| == |log| + 1 && n <= m <= |log|
    requires Vetted(states, log, n, d, t)
    ensures Vetted(states, log, m, d, t)
  {
    hide Vets;
  }

  lemma {:induction false} ScansAreExplained(states: seq<State>, log: seq<Event>, n: nat, d: Delivery)
    requires IsRun(states, log) && n <= |log| && d in states[n].scans
    ensures var x := states[n].scans[d];
      && (x.pc.Spooled? ==> HasRead(states, log, n, d, x.task))
      && (Cleared(x.pc) ==> Vetted(states, log, n, d, x.task))
  {
    hide Step, Spools, Passes;
    if n > 0 {
      var s, e := states[n - 1], log[n - 1];
      StepExplains(s, e, d);
      if d in s.scans {
        ScansAreExplained(states, log, n - 1, d);
        var t := s.scans[d].task;
        if Passes(s, e, d, t) {
          PassesAfterReading(s, e, d, t);
          var i: nat :| i < n - 1 && Spools(states[i], log[i], d, t);
          assert Vets(states, log, i, n - 1, d, t);
        } else if Cleared(states[n].scans[d].pc) {
          VettedStays(states, log, n - 1, n, d, t);
        }
      }
    }
  }

  lemma PassesAfterReading(s: State, e: Event, d: Delivery, t: Task)
    requires Passes(s, e, d, t)
    ensures d in s.scans && s.scans[d].pc.Spooled? && s.scans[d].task == t
  {
  }

  /** Every image task was published by a scan that read its object and then answered OK. */
  lemma {:induction false} ImageTasksAreVetted(states: seq<State>, log: seq<Event>, n: nat, k: nat)
    requires IsRun(states, log) && n <= |log| && k < |states[n].imageQueue|
    ensures var b := states[n].imageQueue[k].body; Vetted(states, log, n, b.source, b.task)
  {
    hide Step, Vetted;
    if n > 0 {
      var b := states[n].imageQueue[k].body;
      NewImageTasks(states[n - 1], log[n - 1], k);
      if k < |states[n - 1].imageQueue| && b == states[n - 1].imageQueue[k].body {
        ImageTasksAreVetted(states, log, n - 1, k);
      } else {
        ScansAreExplained(states, log, n - 1, b.source);
      }
      VettedStays(states, log, n - 1, n, b.source, b.task);
    }
  }

  /***** Contents *****/

  /** What is stored under `key` before event `n`, when event `k` writes `bytes[k]`. */
  ghost function ContentAt<C>(states: seq<State>, log: seq<Event>, bytes: seq<C>, key: Key, n: nat): Option<C>
    requires |states| == |log| + 1 && |bytes| == |log| && n <= |log|
  {
    if n == 0 then None
    else if Stores(states[n - 1], log[n - 1], key) then Some(bytes[n - 1])
    else ContentAt(states, log, bytes, key, n - 1)
  }

  /** An object in the bucket has a content. */
  lemma {:induction false} ObjectsHaveContent<C>(states: seq<State>, log: seq<Event>, bytes: seq<C>, key: Key, n: nat)
    requires IsRun(states, log) && |bytes| == |log| && n <= |log| && key in states[n].uploads
    ensures ContentAt(states, log, bytes, key, n).Some?
  {
    hide Step, Stores;
    if n > 0 {
      OnlyStoresAdd(states[n - 1], log[n - 1], key);
      if !Stores(states[n - 1], log[n - 1], key) { ObjectsHaveContent(states, log, bytes, key, n - 1); }
    }
  }

  lemma {:induction false} ContentWasStored<C>(states: seq<State>, log: seq<Event>, bytes: seq<C>, key: Key, n: nat)
    requires |states| == |log| + 1 && |bytes| == |log| && n <= |log|
    ensures var c := ContentAt(states, log, bytes, key, n);
      c.Some? ==> exists k: nat {:trigger bytes[k]} :: k < n && Stores(states[k], log[k], key) && bytes[k] == c.value
  {
    hide Stores;
    if n > 0 {
      ContentWasStored(states, log, bytes, key, n - 1);
      if Stores(states[n - 1], log[n - 1], key) { assert bytes[n - 1] == ContentAt(states, log, bytes, key, n).value; }
    }
  }

  /** Event `m` is the last one from `i` to before `f` that stores under `key`. */
  ghost predicate StoresLast(states: seq<State>, log: seq<Event>, key: Key, i: nat, m: nat, f: nat)
    requires |states| == |log| + 1 && f <= |log|
  {
    && i <= m < f && Stores(states[m], log[m], key)
    && forall k {:trigger log[k]} :: m < k < f ==> !Stores(states[k], log[k], key)
  }

  /** Between two moments the content stays the same if and only if the last upload of the
      key between them, if there is one, brought that content again. */
  lemma {:induction false} ContentStays<C>(states: seq<State>, log: seq<Event>, bytes: seq<C>, key: Key, i: nat, f: nat)
    requires |states| == |log| + 1 && |bytes| == |log| && i <= f <= |log|
    ensures ContentAt(states, log, bytes, key, f) == ContentAt(states, log, bytes, key, i) <==>
            forall m: nat | StoresLast(states, log, key, i, m, f) :: Some(bytes[m]) == ContentAt(states, log, bytes, key, i)
  {
    hide Stores;
    if i < f {
      if Stores(states[f - 1], log[f - 1], key) {
        assert StoresLast(states, log, key, i, f - 1, f);
      } else {
        ContentStays(states, log, bytes, key, i, f - 1);
        assert forall m: nat :: StoresLast(states, log, key, i, m, f - 1) <==> StoresLast(states, log, key, i, m, f);
      }
    }
  }

  /** Whatever the image worker reads for a task, the scan that published the task had read the
      same object earlier and then answered OK; and the content is the one that was scanned if
      and only if no later upload of the key brought another. */
  lemma {:induction false} RenderedIsScanned<C>(states: seq<State>, log: seq<Event>, bytes: seq<C>, f: nat, d: Delivery, t: Task)
    requires IsRun(states, log) && |bytes| == |log| && f < |log| && Fetches(states[f], log[f], d, t)
    ensures exists i: nat, j: nat, source: Delivery ::
              && j < f && Vets(states, log, i, j, source, t)
              && ContentAt(states, log, bytes, t.key, i).Some?
              && (ContentAt(states, log, bytes, t.key, f) == ContentAt(states, log, bytes, t.key, i) <==>
                  forall m: nat | StoresLast(states, log, t.key, i, m, f) :: Some(bytes[m]) == ContentAt(states, log, bytes, t.key, i))
  {
    hide Step, ContentAt, Inv, StoresLast;
    RunKeeps(states, log, f);
    ImageOf(states[f], d);
    ImageTasksAreVetted(states, log, f, d.msg);
    var source := states[f].imageQueue[d.msg].body.source;
    var i: nat, j: nat :| j < f && Vets(states, log, i, j, source, t);
    ObjectsHaveContent(states, log, bytes, t.key, i);
    ContentStays(states, log, bytes, t.key, i, f);
  }

  /** If all uploads of a key bring one content, it stays what it was. */
  lemma {:induction false} OneContentSuffices<C>(states: seq<State>, log: seq<Event>, bytes: seq<C>, key: Key, i: nat, f: nat)
    requires |states| == |log| + 1 && |bytes| == |log| && i <= f <= |log|
    requires ContentAt(states, log, bytes, key, i).Some?
    requires forall k, m {:trigger bytes[k], bytes[m]} ::
               0 <= k < |log| && 0 <= m < |log| && Stores(states[k], log[k], key) && Stores(states[m], log[m], key) ==> bytes[k] == bytes[m]
    ensures ContentAt(states, log, bytes, key, f) == ContentAt(states, log, bytes, key, i)
  {
    hide Stores, ContentAt;
    ContentWasStored(states, log, bytes, key, i);
    ContentStays(states, log, bytes, key, i, f);
  }
}
