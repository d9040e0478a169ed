/** Which parts of the state each handler of the pipeline leaves alone, and that no handler
    touches the record of another. */
module PipelineFrames {
  import opened Broker
  import opened Keys
  import opened Pipeline

  lemma UploadFrame(s: State, u: nat, a: UploadAction)
    ensures var s' := UploadStep(s, u, a);
      s'.imageQueue == s.imageQueue && s'.cleared == s.cleared && s'.scans == s.scans && s'.images == s.images
    ensures s.scanQueue <= UploadStep(s, u, a).scanQueue
  {
  }

  /***** The scanner *****/

  /** A handler that may still publish an image task. */
  predicate Unforwarded(pc: ScanPc) {
    pc.Received? || pc.Loaded? || pc.Marked? || pc.Located? || pc.Spooled? || pc.Judged? || pc.Recorded?
  }

  /** Only the record of `d` changes, and not back to before the forwarding. */
  ghost predicate OnlyScan(s: State, s': State, d: Delivery) {
    && s'.images == s.images && s'.requests == s.requests
    && (d in s'.scans && Unforwarded(s'.scans[d].pc) ==> d in s.scans && Unforwarded(s.scans[d].pc))
    && forall e: Delivery | e != d :: (e in s'.scans <==> e in s.scans) && (e in s.scans ==> s'.scans[e] == s.scans[e])
  }

  /** The work queues stay as they are, too. */
  ghost predicate QuietScan(s: State, s': State, d: Delivery) {
    OnlyScan(s, s', d) && s'.scanQueue == s.scanQueue && s'.imageQueue == s.imageQueue
  }

  /** Every step inside the transaction and its handlers has this form. */
  function Put(s: State, d: Delivery, x: Scan, u: set<Key>, q: set<Key>, f: map<FileId, FileRow>, j: map<JobId, JobRow>, n: seq<Notice>): State {
    At(s, d, x).(uploads := u, quarantine := q, files := f, jobs := j, notices := n)
  }

  lemma PutIsQuiet(s: State, d: Delivery, x: Scan, u: set<Key>, q: set<Key>, f: map<FileId, FileRow>, j: map<JobId, JobRow>, n: seq<Notice>)
    requires d in s.scans
    ensures (Unforwarded(x.pc) ==> Unforwarded(s.scans[d].pc)) ==> QuietScan(s, Put(s, d, x, u, q, f, j, n), d)
    ensures Put(s, d, x, u, q, f, j, n).cleared == s.cleared
  {
  }

  lemma AtIsQuiet(s: State, d: Delivery, x: Scan)
    requires d in s.scans
    ensures (Unforwarded(x.pc) ==> Unforwarded(s.scans[d].pc)) ==> QuietScan(s, At(s, d, x), d)
    ensures At(s, d, x).cleared == s.cleared
  {
  }

  lemma NothingIsQuiet(s: State, d: Delivery)
    ensures QuietScan(s, s, d)
  {
  }

  lemma ReadFrame(s: State, d: Delivery, a: ScanAction)
    requires d in s.scans
    ensures var s' := ReadStep(s, d, s.scans[d], a); QuietScan(s, s', d) && s'.cleared == s.cleared
  {
    hide QuietScan, SetStatus, Matches;
    var x := s.scans[d];
    var j := x.task.job;
    NothingIsQuiet(s, d);
    match a
    case LoadJob =>
      if j in s.jobs { AtIsQuiet(s, d, x.(seen := s.jobs[j].status, pc := Loaded)); }
      AtIsQuiet(s, d, x.(pc := NoJob));
    case MarkScanning =>
      PutIsQuiet(s, d, x.(seen := Scanning, pc := Marked), s.uploads, s.quarantine, s.files, SetStatus(s.jobs, j, x.seen, Scanning), s.notices);
    case Locate(f) =>
      if f in s.files { AtIsQuiet(s, d, x.(file := f, bucket := s.files[f].bucket, pc := Located)); }
      AtIsQuiet(s, d, x.(pc := Raised(Other)));
    case _ =>
  }

  lemma JudgeFrame(s: State, d: Delivery, a: ScanAction, j: JobId)
    requires d in s.scans
    ensures var x := s.scans[d]; var s' := JudgeStep(s, d, x, a);
      && QuietScan(s, s', d)
      && (j in s'.cleared <==> j in s.cleared || (a == Judge(Ok) && x.pc.Spooled? && x.task.job == j))
  {
    hide QuietScan, SetStatus;
    var x := s.scans[d];
    NothingIsQuiet(s, d);
    match a
    case Spool =>
      AtIsQuiet(s, d, x.(pc := Spooled));
      AtIsQuiet(s, d, x.(pc := Raised(Other)));
    case Judge(v) =>
      if x.pc.Spooled? {
        VerdictIsQuiet(s, d, x.(pc := Judged(v)), if v.Ok? then s.cleared + {x.task.job} else s.cleared);
      }
    case Record =>
      if x.pc.Judged? {
        var st := if x.pc.verdict.Ok? then Clean else Infected;
        PutIsQuiet(s, d, x.(seen := st, pc := Recorded(x.pc.verdict)), s.uploads, s.quarantine, s.files, SetStatus(s.jobs, x.task.job, x.seen, st), s.notices);
      }
    case _ =>
  }


  lemma VerdictIsQuiet(s: State, d: Delivery, x: Scan, c: set<JobId>)
    requires d in s.scans && Unforwarded(s.scans[d].pc)
    ensures QuietScan(s, At(s, d, x).(cleared := c), d)
  {
  }

  lemma QuarantineFrame(s: State, d: Delivery, a: ScanAction)
    requires d in s.scans
    ensures var s' := QuarantineStep(s, d, s.scans[d], a); QuietScan(s, s', d) && s'.cleared == s.cleared
  {
    hide QuietScan, SetStatus, SetBucket;
    var x := s.scans[d];
    var j, key := x.task.job, x.task.key;
    NothingIsQuiet(s, d);
    AtIsQuiet(s, d, x.(pc := Raised(Other)));
    match a
    case Copy => PutIsQuiet(s, d, x.(pc := Copied), s.uploads, s.quarantine + {key}, s.files, s.jobs, s.notices);
    case Head => AtIsQuiet(s, d, x.(pc := Verified));
    case Delete => PutIsQuiet(s, d, x.(pc := Deleted), s.uploads - {key}, s.quarantine, s.files, s.jobs, s.notices);
    case Seal =>
      PutIsQuiet(s, d, x.(seen := Quarantined, bucket := Quarantine, pc := Sealed), s.uploads, s.quarantine,
                 SetBucket(s.files, x.file, x.bucket, Quarantine), SetStatus(s.jobs, j, x.seen, Quarantined), s.notices);
    case NoticeQuarantined =>
      PutIsQuiet(s, d, x.(pc := Ending), s.uploads, s.quarantine, s.files, s.jobs, s.notices + [Notice(JobQuarantined, j, d)]);
    case _ =>
  }

  /** The clean branch, which may publish the image task. */
  lemma PassFrame(s: State, d: Delivery, a: ScanAction)
    requires d in s.scans
    ensures var x := s.scans[d]; var s' := PassStep(s, d, x, a);
      && OnlyScan(s, s', d) && s'.scanQueue == s.scanQueue && s'.cleared == s.cleared
      && (s'.imageQueue == s.imageQueue
          || (x.pc == Recorded(Ok) && Unforwarded(x.pc) && d in s'.scans && !Unforwarded(s'.scans[d].pc)
              && s'.imageQueue == Publish(s.imageQueue, ImageTask(x.task, d))))
  {
    hide OnlyScan, SetStatus, KindOf, Publish;
    var x := s.scans[d];
    var j := x.task.job;
    NothingIsQuiet(s, d);
    QuietIsOnly(s, s, d);
    match a
    case Forward => ForwardingMoves(s, d);
    case EndScan => AtIsQuiet(s, d, x.(pc := Ending)); QuietIsOnly(s, At(s, d, x.(pc := Ending)), d);
    case Complete =>
      var f := SetStatus(s.jobs, j, x.seen, Completed);
      PutIsQuiet(s, d, x.(seen := Completed, pc := Finished), s.uploads, s.quarantine, s.files, f, s.notices);
      QuietIsOnly(s, Put(s, d, x.(seen := Completed, pc := Finished), s.uploads, s.quarantine, s.files, f, s.notices), d);
    case NoticeCompleted =>
      var n := s.notices + [Notice(JobCompleted, j, d)];
      PutIsQuiet(s, d, x.(pc := Ending), s.uploads, s.quarantine, s.files, s.jobs, n);
      QuietIsOnly(s, Put(s, d, x.(pc := Ending), s.uploads, s.quarantine, s.files, s.jobs, n), d);
    case Throw(why) => AtIsQuiet(s, d, x.(pc := Raised(why))); QuietIsOnly(s, At(s, d, x.(pc := Raised(why))), d);
    case _ =>
  }

  lemma QuietIsOnly(s: State, s': State, d: Delivery)
    ensures QuietScan(s, s', d) ==> OnlyScan(s, s', d) && s'.scanQueue == s.scanQueue && s'.imageQueue == s.imageQueue
  {
  }

  lemma ForwardingMoves(s: State, d: Delivery)
    requires d in s.scans
    ensures var s' := At(s, d, s.scans[d].(pc := Forwarded)).(imageQueue := Publish(s.imageQueue, ImageTask(s.scans[d].task, d)));
      OnlyScan(s, s', d) && s'.scanQueue == s.scanQueue && s'.cleared == s.cleared && d in s'.scans && s'.scans[d].pc.Forwarded?
  {
    hide Publish;
  }

  lemma HandleFrame(s: State, d: Delivery, a: ScanAction)
    requires d in s.scans
    ensures var s' := HandleStep(s, d, s.scans[d], a); QuietScan(s, s', d) && s'.cleared == s.cleared
  {
    hide QuietScan, SetStatus, MayReport, ReportFor, LastDelivery;
    var x := s.scans[d];
    NothingIsQuiet(s, d);
    match a
    case Rescue(saved) =>
      AtIsQuiet(s, d, x.(pc := Failing(Other)));
      if x.pc.Raised? {
        var st := if x.pc.failure.ConnectionDropped? then QueuedForRetry else Failed;
        PutIsQuiet(s, d, x.(seen := st, pc := Failing(x.pc.failure)), s.uploads, s.quarantine, s.files, SetStatus(s.jobs, x.task.job, x.seen, st), s.notices);
      }
    case NoticeFailed =>
      PutIsQuiet(s, d, x.(pc := Noticed), s.uploads, s.quarantine, s.files, s.jobs, s.notices + [Notice(JobFailed, x.task.job, d)]);
    case Report => if MayReport(x.pc, d) { AtIsQuiet(s, d, x.(pc := Reported(ReportFor(x.pc)))); }
    case _ =>
  }

  lemma SettleFrame(s: State, d: Delivery, a: ScanAction)
    requires d in s.scans
    ensures var x := s.scans[d]; var s' := SettleStep(s, d, x, a); var q' := s'.scanQueue;
      && OnlyScan(s, s', d) && s'.imageQueue == s.imageQueue && s'.cleared == s.cleared
      && (|| q' == s.scanQueue
          || ((x.pc.Ending? || x.pc.NoJob?) && q' == Ack(s.scanQueue, d.msg, d.tag))
          || (x.pc == Failing(TooLong) && q' == Discard(s.scanQueue, d.msg, d.tag))
          || q' == Return(s.scanQueue, d.msg, d.tag))
  {
    hide OnlyScan, Ack, Discard, Return;
    NothingIsQuiet(s, d);
    QuietIsOnly(s, s, d);
    LeavingMoves(s, d, Ack(s.scanQueue, d.msg, d.tag));
    LeavingMoves(s, d, Discard(s.scanQueue, d.msg, d.tag));
    LeavingMoves(s, d, Return(s.scanQueue, d.msg, d.tag));
  }

  lemma LeavingMoves(s: State, d: Delivery, q: Queue<Task>)
    ensures OnlyScan(s, s.(scans := s.scans - {d}).(scanQueue := q), d)
  {
  }

  /** All phases of the scanner together. */
  lemma ScanFrame(s: State, d: Delivery, a: ScanAction, j: JobId)
    requires d in s.scans && !a.TakeScan? && !a.CrashScan?
    ensures var x := s.scans[d]; var s' := ScanStep(s, d, a); var q' := s'.scanQueue;
      && OnlyScan(s, s', d)
      && (j in s'.cleared <==> j in s.cleared || (a == Judge(Ok) && x.pc.Spooled? && x.task.job == j))
      && (s'.imageQueue == s.imageQueue
          || (x.pc == Recorded(Ok) && Unforwarded(x.pc) && d in s'.scans && !Unforwarded(s'.scans[d].pc)
              && s'.imageQueue == Publish(s.imageQueue, ImageTask(x.task, d))))
      && (|| q' == s.scanQueue
          || ((x.pc.Ending? || x.pc.NoJob?) && q' == Ack(s.scanQueue, d.msg, d.tag))
          || (x.pc == Failing(TooLong) && q' == Discard(s.scanQueue, d.msg, d.tag))
          || q' == Return(s.scanQueue, d.msg, d.tag))
  {
    hide ReadStep, JudgeStep, QuarantineStep, PassStep, HandleStep, SettleStep, Ack, Discard, Return, Publish, OnlyScan;
    ReadFrame(s, d, a);
    JudgeFrame(s, d, a, j);
    QuarantineFrame(s, d, a);
    PassFrame(s, d, a);
    HandleFrame(s, d, a);
    SettleFrame(s, d, a);
  }

  /***** The image worker *****/

  ghost predicate SameScanSide(s: State, s': State) {
    s'.uploads == s.uploads && s'.notices == s.notices && s'.scanQueue == s.scanQueue && s'.cleared == s.cleared && s'.scans == s.scans && s'.requests == s.requests
  }

  /** Only the record of `d` changes. */
  ghost predicate OnlyImage(s: State, s': State, d: Delivery) {
    && SameScanSide(s, s')
    && forall e: Delivery | e != d :: (e in s'.images <==> e in s.images) && (e in s.images ==> s'.images[e] == s.images[e])
  }

  function PutImageRun(s: State, d: Delivery, x: ImageRun, p: map<string, JobId>, f: map<FileId, FileRow>, j: map<JobId, JobRow>): State {
    AtImage(s, d, x).(processed := p, files := f, jobs := j)
  }

  lemma PutImageIsLocal(s: State, d: Delivery, x: ImageRun, p: map<string, JobId>, f: map<FileId, FileRow>, j: map<JobId, JobRow>)
    ensures OnlyImage(s, PutImageRun(s, d, x, p, f, j), d) && PutImageRun(s, d, x, p, f, j).imageQueue == s.imageQueue
  {
  }

  lemma AtImageIsLocal(s: State, d: Delivery, x: ImageRun)
    ensures OnlyImage(s, AtImage(s, d, x), d) && AtImage(s, d, x).imageQueue == s.imageQueue
  {
  }

  lemma NoImageIsLocal(s: State, d: Delivery, q: Queue<ImageTask>)
    ensures OnlyImage(s, s, d) && OnlyImage(s, s.(images := s.images - {d}), d)
    ensures OnlyImage(s, s.(images := s.images - {d}).(imageQueue := q), d) && OnlyImage(s, s.(images := s.images - {d}, imageQueue := q), d)
  {
  }

  lemma ImageBodyFrame(s: State, d: Delivery, x: ImageRun, a: ImageAction)
    ensures var s' := ImageBody(s, d, x, a);
      OnlyImage(s, s', d) && (s'.imageQueue == s.imageQueue || s'.imageQueue == Ack(s.imageQueue, d.msg, d.tag))
  {
    hide OnlyImage, SetStatus, SetBucket, Stem, Names, Derivative, Ack;
    var j := x.task.job;
    NoImageIsLocal(s, d, Ack(s.imageQueue, d.msg, d.tag));
    match a
    case Open =>
      if j in s.jobs && s.jobs[j].file in s.files {
        var row := s.files[s.jobs[j].file];
        AtImageIsLocal(s, d, x.(file := s.jobs[j].file, uploadId := row.uploadId, bucket := row.bucket, seen := s.jobs[j].status, pc := Opened));
      }
      AtImageIsLocal(s, d, x.(pc := Mismatch));
    case MarkProcessing =>
      PutImageIsLocal(s, d, x.(seen := Processing, pc := Working), s.processed, s.files, SetStatus(s.jobs, j, x.seen, Processing));
    case Fetch =>
      AtImageIsLocal(s, d, x.(pc := Fetched));
      AtImageIsLocal(s, d, x.(pc := Broken));
    case Render => AtImageIsLocal(s, d, x.(pc := Rendering(0)));
    case StoreDerivative =>
      if x.pc.Rendering? && x.pc.stored < |Names()| {
        PutImageIsLocal(s, d, x.(pc := Rendering(x.pc.stored + 1)), s.processed[Derivative(x.uploadId, x.pc.stored) := j], s.files, s.jobs);
      }
    case Save =>
      PutImageIsLocal(s, d, x.(seen := Completed, bucket := Processed, pc := Saved), s.processed,
                      SetBucket(s.files, x.file, x.bucket, Processed), SetStatus(s.jobs, j, x.seen, Completed));
    case FinishImage => AtImageIsLocal(s, d, x.(pc := Finishing));
    case Break => AtImageIsLocal(s, d, x.(pc := Broken));
    case _ =>
  }

  lemma ImageTailFrame(s: State, d: Delivery, x: ImageRun, a: ImageAction)
    ensures var s' := ImageTail(s, d, x, a); var q' := s'.imageQueue;
      && OnlyImage(s, s', d)
      && (q' == s.imageQueue
          || (!x.pc.Told? && q' == Ack(s.imageQueue, d.msg, d.tag))
          || q' == Return(s.imageQueue, d.msg, d.tag))
  {
    hide OnlyImage, Ack, Return, LastDelivery;
    NoImageIsLocal(s, d, Ack(s.imageQueue, d.msg, d.tag));
    NoImageIsLocal(s, d, Return(s.imageQueue, d.msg, d.tag));
    AtImageIsLocal(s, d, x.(pc := Told(if LastDelivery(d) then SaysDeadLetter else SaysRetry)));
  }

  lemma ImageFrame(s: State, d: Delivery, a: ImageAction)
    ensures OnlyImage(s, ImageStep(s, d, a), d)
    ensures d in s.images && !a.TakeImage? ==>
              var q' := ImageStep(s, d, a).imageQueue;
              || q' == s.imageQueue
              || (!s.images[d].pc.Told? && q' == Ack(s.imageQueue, d.msg, d.tag))
              || q' == Return(s.imageQueue, d.msg, d.tag)
  {
    if d in s.images && !a.TakeImage? && !a.CrashImage? {
      hide ImageBody, ImageTail, OnlyImage, Ack, Return;
      ImageBodyFrame(s, d, s.images[d], a);
      ImageTailFrame(s, d, s.images[d], a);
    } else {
      hide Deliver;
    }
  }

  /***** Records *****/

  /** A running handler. */
  datatype Actor = Client(u: nat) | Scanner(d: Delivery) | Imager(d: Delivery)

  predicate ActsFor(e: Event, who: Actor) {
    match who
    case Client(u) => e.OfRequest? && e.request == u
    case Scanner(d) => e.OfScan? && e.delivery == d
    case Imager(d) => e.OfImage? && e.delivery == d
  }

  ghost predicate SameEntry<K, V>(m: map<K, V>, m': map<K, V>, k: K) {
    (k in m <==> k in m') && (k in m ==> m[k] == m'[k])
  }

  /** The record of a handler: its locals and its program counter. */
  ghost predicate SameRecord(s: State, s': State, who: Actor) {
    match who
    case Client(u) => SameEntry(s.requests, s'.requests, u)
    case Scanner(d) => SameEntry(s.scans, s'.scans, d)
    case Imager(d) => SameEntry(s.images, s'.images, d)
  }

  lemma ScanIsLocal(s: State, d2: Delivery, a: ScanAction, who: Actor)
    requires who != Scanner(d2)
    ensures SameRecord(s, ScanStep(s, d2, a), who)
  {
    if d2 in s.scans && !a.TakeScan? && !a.CrashScan? {
      hide ScanStep;
      ScanFrame(s, d2, a, 0);
    } else {
      hide ScanBody, ScanTail, Deliver;
    }
  }

  lemma UploadIsLocal(s: State, u2: nat, a: UploadAction, u: nat)
    requires u2 != u
    ensures SameEntry(s.requests, UploadStep(s, u2, a).requests, u)
  {
  }

  lemma OthersAreLocal(s: State, e: Event, who: Actor)
    requires !ActsFor(e, who)
    ensures SameRecord(s, Step(s, e), who)
  {
    hide UploadStep, ScanStep, ImageStep;
    match e
    case OfRequest(u, a) =>
      UploadFrame(s, u, a);
      if who.Client? { UploadIsLocal(s, u, a, who.u); }
    case OfScan(d2, a) => ScanIsLocal(s, d2, a, who);
    case OfImage(d2, a) => ImageFrame(s, d2, a);
    case LoseScan(_) =>
    case LoseImage(_) =>
  }
}
