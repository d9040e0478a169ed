/** The invariant of the pipeline and its proof, one lemma per handler.

    Everything an element of the state (a row, a message, a running handler) relies on
    only ever grows, so an event disturbs no element but the one it changes. */
module PipelineInvariant {
  import opened Broker
  import opened Keys
  import opened Pipeline

  ghost predicate Kept(s: State, key: Key) {
    key in s.uploads || key in s.quarantine
  }

  ghost predicate FileOk(s: State, r: FileRow) {
    && WellFormed(r.uploadId, r.ext) && r.location == r.uploadId + r.ext
    && Kept(s, r.location)
    && (r.bucket.Quarantine? ==> r.location in s.quarantine)
    && (r.bucket.Processed? ==> Derivatives(r.uploadId) <= s.processed.Keys)
  }

  /** The statuses of a job that was let through by a scan. */
  predicate Downstream(st: Status) { st.Clean? || st.Processing? || st.Completed? }

  ghost predicate JobOk(s: State, j: JobId, r: JobRow) {
    && r.file in s.files
    && (Downstream(r.status) ==> j in s.cleared)
    && (r.status.Quarantined? ==> s.files[r.file].location in s.quarantine)
  }

  ghost predicate TaskOk(s: State, t: Task) {
    && t.job in s.jobs && s.jobs[t.job].file in s.files
    && var row := s.files[s.jobs[t.job].file];
       row.location == t.key && row.uploadId == Stem(t.key) && row.developer == t.developer
  }

  ghost predicate ImageTaskOk(s: State, t: ImageTask) {
    && TaskOk(s, t.task) && t.task.job in s.cleared
    && KindOf(s.files[s.jobs[t.task.job].file].ext).Image?
  }

  ghost predicate NoticeOk(s: State, n: Notice) {
    && n.job in s.jobs && s.jobs[n.job].file in s.files
    && match n.event
       case JobQuarantined => s.files[s.jobs[n.job].file].location in s.quarantine
       case JobCompleted => n.job in s.cleared
       case JobFailed => LastDelivery(n.source)
  }

  ghost predicate RequestOk(s: State, r: Request) {
    && WellFormed(r.hash, r.ext)
    && (r.pc.Stored? ==> Kept(s, KeyOf(r)))
    && (r.pc.Committed? ==> TaskOk(s, Task(r.pc.job, KeyOf(r), r.developer)))
  }

  predicate HasFile(pc: ScanPc) {
    InTransaction(pc) && !pc.Received? && !pc.Loaded? && !pc.Marked?
  }

  ghost predicate ReportOk(d: Delivery, r: Report) {
    (r.SaysDeadLetter? ==> LastDelivery(d)) && (r.SaysRetry? ==> !LastDelivery(d))
  }

  ghost predicate ScanOk(s: State, d: Delivery, x: Scan) {
    && d.msg < |s.scanQueue| && s.scanQueue[d.msg].body == x.task
    && 1 <= d.tag <= s.scanQueue[d.msg].deliveries
    && TaskOk(s, x.task)
    && !x.pc.NoJob?
    && (HasFile(x.pc) ==> x.file == s.jobs[x.task.job].file)
    && (x.pc == Judged(Ok) || x.pc == Recorded(Ok) || x.pc.Forwarded? || x.pc.Finished? ==> x.task.job in s.cleared)
    && (x.pc.Copied? || x.pc.Verified? || x.pc.Deleted? || x.pc.Sealed? ==> x.task.key in s.quarantine)
    && (x.pc.Noticed? ==> LastDelivery(d))
    && (x.pc.Reported? ==> ReportOk(d, x.pc.report))
  }

  ghost predicate ImageOk(s: State, d: Delivery, x: ImageRun) {
    && d.msg < |s.imageQueue| && s.imageQueue[d.msg].body.task == x.task
    && 1 <= d.tag <= s.imageQueue[d.msg].deliveries
    && TaskOk(s, x.task) && x.task.job in s.cleared
    && !x.pc.Mismatch?
    && (!x.pc.Arrived? && !x.pc.Broken? && !x.pc.Told? ==>
          x.file == s.jobs[x.task.job].file && x.uploadId == s.files[x.file].uploadId)
    && (x.pc.Rendering? ==> forall k: nat :: k < x.pc.stored && k < |Names()| ==> Derivative(x.uploadId, k) in s.processed)
    && (x.pc.Told? ==> !x.pc.report.SaysQueued? && ReportOk(d, x.pc.report))
  }

  ghost predicate RowsOk(s: State) {
    && (forall f | f in s.files :: FileOk(s, s.files[f]))
    && (forall j | j in s.jobs :: JobOk(s, j, s.jobs[j]))
    && (forall k | k in s.processed :: s.processed[k] in s.cleared)
  }

  ghost predicate MessagesOk(s: State) {
    && Sound(s.scanQueue) && Sound(s.imageQueue)
    && (forall i | 0 <= i < |s.scanQueue| :: TaskOk(s, s.scanQueue[i].body))
    && (forall i | 0 <= i < |s.imageQueue| :: ImageTaskOk(s, s.imageQueue[i].body))
    && (forall i | 0 <= i < |s.notices| :: NoticeOk(s, s.notices[i]))
  }

  ghost predicate HandlersOk(s: State) {
    && (forall u | u in s.requests :: RequestOk(s, s.requests[u]))
    && (forall d | d in s.scans :: ScanOk(s, d, s.scans[d]))
    && (forall d | d in s.images :: ImageOk(s, d, s.images[d]))
  }

  ghost predicate Inv(s: State) {
    RowsOk(s) && MessagesOk(s) && HandlersOk(s)
  }

  predicate SameFile(r: FileRow, r': FileRow) {
    r' == r.(bucket := r'.bucket)
  }

  /** What no event takes back. */
  ghost predicate Grows(s: State, s': State) {
    && (forall key :: Kept(s, key) ==> Kept(s', key))
    && s.quarantine <= s'.quarantine && s.processed.Keys <= s'.processed.Keys && s.cleared <= s'.cleared
    && (forall f | f in s.files :: f in s'.files && SameFile(s.files[f], s'.files[f]))
    && (forall j | j in s.jobs :: j in s'.jobs && s'.jobs[j].file == s.jobs[j].file)
    && Extends(s.scanQueue, s'.scanQueue) && Extends(s.imageQueue, s'.imageQueue)
    && s.notices <= s'.notices
  }

  /***** In a growing state an element that did not change is as good as it was *****/

  ghost predicate NewRowsOk(s: State, s': State) {
    && (forall f | f in s'.files :: (f in s.files && s.files[f] == s'.files[f]) || FileOk(s', s'.files[f]))
    && (forall j | j in s'.jobs :: (j in s.jobs && s.jobs[j] == s'.jobs[j]) || JobOk(s', j, s'.jobs[j]))
    && (forall k | k in s'.processed :: (k in s.processed && s.processed[k] == s'.processed[k]) || s'.processed[k] in s'.cleared)
  }

  ghost predicate NewMessagesOk(s: State, s': State) {
    && Sound(s'.scanQueue) && Sound(s'.imageQueue)
    && (forall i | |s.scanQueue| <= i < |s'.scanQueue| :: TaskOk(s', s'.scanQueue[i].body))
    && (forall i | |s.imageQueue| <= i < |s'.imageQueue| :: ImageTaskOk(s', s'.imageQueue[i].body))
    && (forall i | 0 <= i < |s'.notices| :: (i < |s.notices| && s.notices[i] == s'.notices[i]) || NoticeOk(s', s'.notices[i]))
  }

  ghost predicate NewHandlersOk(s: State, s': State) {
    && (forall u | u in s'.requests :: (u in s.requests && s.requests[u] == s'.requests[u]) || RequestOk(s', s'.requests[u]))
    && (forall d | d in s'.scans :: (d in s.scans && s.scans[d] == s'.scans[d]) || ScanOk(s', d, s'.scans[d]))
    && (forall d | d in s'.images :: (d in s.images && s.images[d] == s'.images[d]) || ImageOk(s', d, s'.images[d]))
  }

  lemma PreserveRows(s: State, s': State)
    requires RowsOk(s) && Grows(s, s') && NewRowsOk(s, s')
    ensures RowsOk(s')
  {
  }

  lemma PreserveMessages(s: State, s': State)
    requires MessagesOk(s) && Grows(s, s') && NewMessagesOk(s, s')
    ensures MessagesOk(s')
  {
    forall i | 0 <= i < |s'.scanQueue| ensures TaskOk(s', s'.scanQueue[i].body) {
      if i < |s.scanQueue| { assert TaskOk(s, s.scanQueue[i].body); }
    }
    forall i | 0 <= i < |s'.imageQueue| ensures ImageTaskOk(s', s'.imageQueue[i].body) {
      if i < |s.imageQueue| { assert ImageTaskOk(s, s.imageQueue[i].body); }
    }
  }

  lemma PreserveHandlers(s: State, s': State)
    requires HandlersOk(s) && Grows(s, s') && NewHandlersOk(s, s')
    ensures HandlersOk(s')
  {
    forall d | d in s'.scans ensures ScanOk(s', d, s'.scans[d]) {
      if d in s.scans { assert ScanOk(s, d, s.scans[d]); }
    }
    forall d | d in s'.images ensures ImageOk(s', d, s'.images[d]) {
      if d in s.images { assert ImageOk(s, d, s.images[d]); }
    }
  }

  lemma Preserve(s: State, s': State)
    requires Inv(s) && Grows(s, s')
    requires NewRowsOk(s, s') && NewMessagesOk(s, s') && NewHandlersOk(s, s')
    ensures Inv(s')
  {
    PreserveRows(s, s');
    PreserveMessages(s, s');
    PreserveHandlers(s, s');
  }

  lemma GrowsTransitive(s: State, t: State, u: State)
    requires Grows(s, t) && Grows(t, u)
    ensures Grows(s, u)
  {
  }

  /***** Updates of one component *****/

  lemma Facts(s: State)
    requires Inv(s)
    ensures Sound(s.scanQueue) && Sound(s.imageQueue) && Grows(s, s)
  {
  }

  lemma FileOf(s: State, f: FileId)
    requires Inv(s) && f in s.files
    ensures FileOk(s, s.files[f])
  {
  }

  lemma JobOf(s: State, j: JobId)
    requires Inv(s) && j in s.jobs
    ensures JobOk(s, j, s.jobs[j])
  {
  }

  lemma PutRequest(s: State, u: nat, r: Request)
    requires Inv(s) && RequestOk(s, r)
    ensures var s' := s.(requests := s.requests[u := r]); Inv(s') && Grows(s, s')
  {
    hide Inv;
    Facts(s);
    Preserve(s, s.(requests := s.requests[u := r]));
  }

  lemma DropRequest(s: State, u: nat)
    requires Inv(s)
    ensures var s' := s.(requests := s.requests - {u}); Inv(s') && Grows(s, s')
  {
    hide Inv;
    Facts(s);
    Preserve(s, s.(requests := s.requests - {u}));
  }

  lemma PutScan(s: State, d: Delivery, x: Scan)
    requires Inv(s) && ScanOk(s, d, x)
    ensures var s' := s.(scans := s.scans[d := x]); Inv(s') && Grows(s, s')
  {
    hide Inv;
    Facts(s);
    Preserve(s, s.(scans := s.scans[d := x]));
  }

  lemma DropScan(s: State, d: Delivery)
    requires Inv(s)
    ensures var s' := s.(scans := s.scans - {d}); Inv(s') && Grows(s, s')
  {
    hide Inv;
    Facts(s);
    Preserve(s, s.(scans := s.scans - {d}));
  }

  lemma PutImage(s: State, d: Delivery, x: ImageRun)
    requires Inv(s) && ImageOk(s, d, x)
    ensures var s' := s.(images := s.images[d := x]); Inv(s') && Grows(s, s')
  {
    hide Inv;
    Facts(s);
    Preserve(s, s.(images := s.images[d := x]));
  }

  lemma DropImage(s: State, d: Delivery)
    requires Inv(s)
    ensures var s' := s.(images := s.images - {d}); Inv(s') && Grows(s, s')
  {
    hide Inv;
    Facts(s);
    Preserve(s, s.(images := s.images - {d}));
  }

  lemma NothingGrows(s: State)
    requires Inv(s)
    ensures Grows(s, s)
  {
    hide Inv;
  }

  lemma PutStatus(s: State, j: JobId, st: Status)
    requires Inv(s) && j in s.jobs
    requires Downstream(st) ==> j in s.cleared
    requires st.Quarantined? ==> s.files[s.jobs[j].file].location in s.quarantine
    ensures var s' := s.(jobs := s.jobs[j := s.jobs[j].(status := st)]); Inv(s') && Grows(s, s')
  {
    hide Inv;
    JobOf(s, j);
    Facts(s);
    Preserve(s, s.(jobs := s.jobs[j := s.jobs[j].(status := st)]));
  }

  lemma WriteStatus(s: State, j: JobId, seen: Status, st: Status)
    requires Inv(s) && j in s.jobs
    requires Downstream(st) ==> j in s.cleared
    requires st.Quarantined? ==> s.files[s.jobs[j].file].location in s.quarantine
    ensures var s' := s.(jobs := SetStatus(s.jobs, j, seen, st)); Inv(s') && Grows(s, s')
  {
    hide Inv, Grows;
    NothingGrows(s);
    PutStatus(s, j, st);
    assert s.(jobs := s.jobs) == s;
  }

  lemma PutBucket(s: State, f: FileId, b: Bucket)
    requires Inv(s) && f in s.files
    requires b.Quarantine? ==> s.files[f].location in s.quarantine
    requires b.Processed? ==> Derivatives(s.files[f].uploadId) <= s.processed.Keys
    ensures var s' := s.(files := s.files[f := s.files[f].(bucket := b)]); Inv(s') && Grows(s, s')
  {
    hide Inv;
    FileOf(s, f);
    Facts(s);
    Preserve(s, s.(files := s.files[f := s.files[f].(bucket := b)]));
  }

  lemma WriteBucket(s: State, f: FileId, seen: Bucket, b: Bucket)
    requires Inv(s) && f in s.files
    requires b.Quarantine? ==> s.files[f].location in s.quarantine
    requires b.Processed? ==> Derivatives(s.files[f].uploadId) <= s.processed.Keys
    ensures var s' := s.(files := SetBucket(s.files, f, seen, b)); Inv(s') && Grows(s, s')
  {
    hide Inv, Grows;
    NothingGrows(s);
    PutBucket(s, f, b);
    assert s.(files := s.files) == s;
  }

  lemma PutObject(s: State, key: Key)
    requires Inv(s)
    ensures var s' := s.(uploads := s.uploads + {key}); Inv(s') && Grows(s, s')
  {
    hide Inv;
    Facts(s);
    Preserve(s, s.(uploads := s.uploads + {key}));
  }

  lemma CopyObject(s: State, key: Key)
    requires Inv(s)
    ensures var s' := s.(quarantine := s.quarantine + {key}); Inv(s') && Grows(s, s')
  {
    hide Inv;
    Facts(s);
    Preserve(s, s.(quarantine := s.quarantine + {key}));
  }

  /** Deleting is harmless exactly because the copy was made and checked before. */
  lemma DeleteObject(s: State, key: Key)
    requires Inv(s) && key in s.quarantine
    ensures var s' := s.(uploads := s.uploads - {key}); Inv(s') && Grows(s, s')
  {
    hide Inv;
    Facts(s);
    Preserve(s, s.(uploads := s.uploads - {key}));
  }

  lemma RecordVerdict(s: State, j: JobId)
    requires Inv(s)
    ensures var s' := s.(cleared := s.cleared + {j}); Inv(s') && Grows(s, s')
  {
    hide Inv;
    Facts(s);
    Preserve(s, s.(cleared := s.cleared + {j}));
  }

  lemma PutDerivative(s: State, name: string, j: JobId)
    requires Inv(s) && j in s.cleared
    ensures var s' := s.(processed := s.processed[name := j]); Inv(s') && Grows(s, s')
  {
    hide Inv;
    Facts(s);
    Preserve(s, s.(processed := s.processed[name := j]));
  }

  lemma PutNotice(s: State, n: Notice)
    requires Inv(s) && NoticeOk(s, n)
    ensures var s' := s.(notices := s.notices + [n]); Inv(s') && Grows(s, s')
  {
    hide Inv;
    Facts(s);
    Preserve(s, s.(notices := s.notices + [n]));
  }

  lemma ChangeScanQueue(s: State, q: Queue<Task>)
    requires Inv(s) && Sound(q) && Extends(s.scanQueue, q)
    requires forall i | |s.scanQueue| <= i < |q| :: TaskOk(s, q[i].body)
    ensures var s' := s.(scanQueue := q); Inv(s') && Grows(s, s')
  {
    hide Inv;
    Facts(s);
    Preserve(s, s.(scanQueue := q));
  }

  lemma ChangeImageQueue(s: State, q: Queue<ImageTask>)
    requires Inv(s) && Sound(q) && Extends(s.imageQueue, q)
    requires forall i | |s.imageQueue| <= i < |q| :: ImageTaskOk(s, q[i].body)
    ensures var s' := s.(imageQueue := q); Inv(s') && Grows(s, s')
  {
    hide Inv;
    Facts(s);
    Preserve(s, s.(imageQueue := q));
  }

  lemma AddRows(s: State, f: FileId, r: FileRow, j: JobId)
    requires Inv(s) && f !in s.files && j !in s.jobs
    requires FileOk(s, r)
    ensures var s' := s.(files := s.files[f := r], jobs := s.jobs[j := JobRow(f, Pending)]); Inv(s') && Grows(s, s')
  {
    hide Inv;
    Facts(s);
    Preserve(s, s.(files := s.files[f := r], jobs := s.jobs[j := JobRow(f, Pending)]));
  }

  /***** One lemma per handler phase *****/

  lemma RequestOf(s: State, u: nat)
    requires Inv(s) && u in s.requests
    ensures RequestOk(s, s.requests[u])
  {
  }

  lemma ScanOf(s: State, d: Delivery)
    requires Inv(s) && d in s.scans
    ensures ScanOk(s, d, s.scans[d])
  {
  }

  lemma ImageOf(s: State, d: Delivery)
    requires Inv(s) && d in s.images
    ensures ImageOk(s, d, s.images[d])
  {
  }

  lemma UploadKeeps(s: State, u: nat, a: UploadAction)
    requires Inv(s)
    ensures var s' := UploadStep(s, u, a); Inv(s') && Grows(s, s')
  {
    hide Inv, Grows;
    Facts(s);
    if a.Receive? {
      if u !in s.requests && WellFormed(a.hash, a.ext) {
        PutRequest(s, u, Request(a.hash, a.ext, a.developer, Hashed));
      }
    } else if u in s.requests {
      var r := s.requests[u];
      RequestOf(s, u);
      DropRequest(s, u);
      PutRequest(s, u, r.(pc := Checked));
      if a.Store? && r.pc.Checked? {
        var t := s.(uploads := s.uploads + {KeyOf(r)});
        PutObject(s, KeyOf(r));
        PutRequest(t, u, r.(pc := Stored));
        GrowsTransitive(s, t, UploadStep(s, u, a));
      } else if a.CommitRows? && r.pc.Stored? && a.job !in s.jobs && a.file !in s.files {
        CommitKeeps(s, u, a.job, a.file);
      } else if a.PublishScan? && r.pc.Committed? {
        var t := s.(scanQueue := Publish(s.scanQueue, Task(r.pc.job, KeyOf(r), r.developer)));
        ChangeScanQueue(s, t.scanQueue);
        PutRequest(t, u, r.(pc := Announced));
        GrowsTransitive(s, t, UploadStep(s, u, a));
      }
    }
  }

  lemma CommitKeeps(s: State, u: nat, j: JobId, f: FileId)
    requires Inv(s) && u in s.requests && s.requests[u].pc.Stored? && j !in s.jobs && f !in s.files
    ensures var s' := UploadStep(s, u, CommitRows(j, f)); Inv(s') && Grows(s, s')
  {
    hide Inv, Grows;
    var r := s.requests[u];
    RequestOf(s, u);
    StemOfKey(r.hash, r.ext);
    var row := FileRow(r.ext, r.hash, KeyOf(r), r.developer, Uploads);
    var t := s.(files := s.files[f := row], jobs := s.jobs[j := JobRow(f, Pending)]);
    AddRows(s, f, row, j);
    PutRequest(t, u, r.(pc := Committed(j)));
    GrowsTransitive(s, t, UploadStep(s, u, CommitRows(j, f)));
  }

  lemma MoveScan(s: State, t: State, d: Delivery, x: Scan)
    requires Inv(t) && Grows(s, t) && ScanOk(t, d, x)
    ensures Inv(At(t, d, x)) && Grows(s, At(t, d, x))
  {
    PutScan(t, d, x);
    GrowsTransitive(s, t, At(t, d, x));
  }

  lemma ReadingKeeps(s: State, d: Delivery, a: ScanAction)
    requires Inv(s) && d in s.scans && InTransaction(s.scans[d].pc)
    ensures var s' := ReadStep(s, d, s.scans[d], a); Inv(s') && Grows(s, s')
  {
    hide Inv, Grows;
    Facts(s);
    var x := s.scans[d];
    var j := x.task.job;
    ScanOf(s, d);
    MoveScan(s, s, d, x.(pc := Raised(Other)));
    if a.LoadJob? && x.pc.Received? {
      MoveScan(s, s, d, x.(seen := s.jobs[j].status, pc := Loaded));
    } else if a.MarkScanning? && x.pc.Loaded? {
      WriteStatus(s, j, x.seen, Scanning);
      MoveScan(s, s.(jobs := SetStatus(s.jobs, j, x.seen, Scanning)), d, x.(seen := Scanning, pc := Marked));
    } else if a.Locate? && x.pc.Marked? && Matches(s.files, x.task.key) == {a.file} && a.file in s.files {
      assert s.jobs[j].file in Matches(s.files, x.task.key);
      MoveScan(s, s, d, x.(file := a.file, bucket := s.files[a.file].bucket, pc := Located));
    }
  }

  lemma RecordKeeps(s: State, d: Delivery)
    requires Inv(s) && d in s.scans && InTransaction(s.scans[d].pc)
    ensures var s' := JudgeStep(s, d, s.scans[d], Record); Inv(s') && Grows(s, s')
  {
    hide Inv, Grows;
    Facts(s);
    NothingGrows(s);
    ScanOf(s, d);
    var x := s.scans[d];
    if x.pc.Judged? {
      var st := if x.pc.verdict.Ok? then Clean else Infected;
      WriteStatus(s, x.task.job, x.seen, st);
      MoveScan(s, s.(jobs := SetStatus(s.jobs, x.task.job, x.seen, st)), d, x.(seen := st, pc := Recorded(x.pc.verdict)));
    }
  }

  lemma SpoolKeeps(s: State, d: Delivery)
    requires Inv(s) && d in s.scans && InTransaction(s.scans[d].pc)
    ensures var s' := JudgeStep(s, d, s.scans[d], Spool); Inv(s') && Grows(s, s')
  {
    hide Inv, Grows, Stem;
    Facts(s);
    NothingGrows(s);
    ScanOf(s, d);
    var x := s.scans[d];
    if x.pc.Located? {
      MoveScan(s, s, d, x.(pc := Raised(Other)));
      MoveScan(s, s, d, x.(pc := Spooled));
    }
  }

  lemma VerdictKeeps(s: State, d: Delivery, v: Verdict)
    requires Inv(s) && d in s.scans && InTransaction(s.scans[d].pc)
    ensures var s' := JudgeStep(s, d, s.scans[d], Judge(v)); Inv(s') && Grows(s, s')
  {
    hide Inv, Grows, Stem;
    Facts(s);
    NothingGrows(s);
    ScanOf(s, d);
    var x := s.scans[d];
    if x.pc.Spooled? {
      RecordVerdict(s, x.task.job);
      MoveScan(s, s.(cleared := if v.Ok? then s.cleared + {x.task.job} else s.cleared), d, x.(pc := Judged(v)));
    }
  }

  lemma JudgingKeeps(s: State, d: Delivery, a: ScanAction)
    requires Inv(s) && d in s.scans && InTransaction(s.scans[d].pc)
    ensures var s' := JudgeStep(s, d, s.scans[d], a); Inv(s') && Grows(s, s')
  {
    hide Inv, Grows;
    NothingGrows(s);
    match a
    case Spool => SpoolKeeps(s, d);
    case Judge(v) => VerdictKeeps(s, d, v);
    case Record => RecordKeeps(s, d);
    case _ =>
  }

  lemma CopyKeeps(s: State, d: Delivery)
    requires Inv(s) && d in s.scans && InTransaction(s.scans[d].pc)
    ensures var s' := QuarantineStep(s, d, s.scans[d], Copy); Inv(s') && Grows(s, s')
  {
    hide Inv, Grows, Stem;
    Facts(s);
    NothingGrows(s);
    ScanOf(s, d);
    var x := s.scans[d];
    if x.pc == Recorded(Found) {
      MoveScan(s, s, d, x.(pc := Raised(Other)));
      CopyObject(s, x.task.key);
      MoveScan(s, s.(quarantine := s.quarantine + {x.task.key}), d, x.(pc := Copied));
    }
  }

  lemma HeadKeeps(s: State, d: Delivery)
    requires Inv(s) && d in s.scans && InTransaction(s.scans[d].pc)
    ensures var s' := QuarantineStep(s, d, s.scans[d], Head); Inv(s') && Grows(s, s')
  {
    hide Inv, Grows, Stem;
    Facts(s);
    NothingGrows(s);
    ScanOf(s, d);
    var x := s.scans[d];
    if x.pc.Copied? {
      MoveScan(s, s, d, x.(pc := Raised(Other)));
      MoveScan(s, s, d, x.(pc := Verified));
    }
  }

  lemma DeleteKeeps(s: State, d: Delivery)
    requires Inv(s) && d in s.scans && InTransaction(s.scans[d].pc)
    ensures var s' := QuarantineStep(s, d, s.scans[d], Delete); Inv(s') && Grows(s, s')
  {
    hide Inv, Grows, Stem;
    Facts(s);
    NothingGrows(s);
    ScanOf(s, d);
    var x := s.scans[d];
    if x.pc.Verified? {
      DeleteObject(s, x.task.key);
      MoveScan(s, s.(uploads := s.uploads - {x.task.key}), d, x.(pc := Deleted));
    }
  }

  lemma NoticeQuarantinedKeeps(s: State, d: Delivery)
    requires Inv(s) && d in s.scans && InTransaction(s.scans[d].pc)
    ensures var s' := QuarantineStep(s, d, s.scans[d], NoticeQuarantined); Inv(s') && Grows(s, s')
  {
    hide Inv, Grows;
    Facts(s);
    NothingGrows(s);
    ScanOf(s, d);
    var x := s.scans[d];
    if x.pc.Sealed? {
      var n := Notice(JobQuarantined, x.task.job, d);
      PutNotice(s, n);
      MoveScan(s, s.(notices := s.notices + [n]), d, x.(pc := Ending));
    }
  }

  lemma QuarantiningKeeps(s: State, d: Delivery, a: ScanAction)
    requires Inv(s) && d in s.scans && InTransaction(s.scans[d].pc)
    ensures var s' := QuarantineStep(s, d, s.scans[d], a); Inv(s') && Grows(s, s')
  {
    hide Inv, Grows;
    NothingGrows(s);
    match a
    case Copy => CopyKeeps(s, d);
    case Head => HeadKeeps(s, d);
    case Delete => DeleteKeeps(s, d);
    case Seal => if s.scans[d].pc.Deleted? { SealKeeps(s, d); }
    case NoticeQuarantined => NoticeQuarantinedKeeps(s, d);
    case _ =>
  }

  lemma SealKeeps(s: State, d: Delivery)
    requires Inv(s) && d in s.scans && s.scans[d].pc.Deleted?
    ensures var s' := QuarantineStep(s, d, s.scans[d], Seal); Inv(s') && Grows(s, s')
  {
    hide Inv, Grows;
    Facts(s);
    var x := s.scans[d];
    var j := x.task.job;
    ScanOf(s, d);
    var t := s.(jobs := SetStatus(s.jobs, j, x.seen, Quarantined));
    WriteStatus(s, j, x.seen, Quarantined);
    var u := t.(files := SetBucket(t.files, x.file, x.bucket, Quarantine));
    WriteBucket(t, x.file, x.bucket, Quarantine);
    GrowsTransitive(s, t, u);
    MoveScan(s, u, d, x.(seen := Quarantined, bucket := Quarantine, pc := Sealed));
  }

  lemma ForwardKeeps(s: State, d: Delivery)
    requires Inv(s) && d in s.scans && InTransaction(s.scans[d].pc)
    ensures var s' := PassStep(s, d, s.scans[d], Forward); Inv(s') && Grows(s, s')
  {
    hide Inv, Grows, KindOf;
    Facts(s);
    NothingGrows(s);
    ScanOf(s, d);
    var x := s.scans[d];
    if x.pc == Recorded(Ok) && KindOf(s.files[x.file].ext).Image? {
      var q := Publish(s.imageQueue, ImageTask(x.task, d));
      ChangeImageQueue(s, q);
      MoveScan(s, s.(imageQueue := q), d, x.(pc := Forwarded));
    }
  }

  lemma CompleteKeeps(s: State, d: Delivery)
    requires Inv(s) && d in s.scans && InTransaction(s.scans[d].pc)
    ensures var s' := PassStep(s, d, s.scans[d], Complete); Inv(s') && Grows(s, s')
  {
    hide Inv, Grows, KindOf;
    Facts(s);
    NothingGrows(s);
    ScanOf(s, d);
    var x := s.scans[d];
    if x.pc == Recorded(Ok) {
      WriteStatus(s, x.task.job, x.seen, Completed);
      MoveScan(s, s.(jobs := SetStatus(s.jobs, x.task.job, x.seen, Completed)), d, x.(seen := Completed, pc := Finished));
    }
  }

  lemma PassingKeeps(s: State, d: Delivery, a: ScanAction)
    requires Inv(s) && d in s.scans && InTransaction(s.scans[d].pc)
    ensures var s' := PassStep(s, d, s.scans[d], a); Inv(s') && Grows(s, s')
  {
    hide Inv, Grows, KindOf;
    Facts(s);
    NothingGrows(s);
    ScanOf(s, d);
    var x := s.scans[d];
    match a
    case Forward => ForwardKeeps(s, d);
    case EndScan => MoveScan(s, s, d, x.(pc := Ending));
    case Complete => CompleteKeeps(s, d);
    case NoticeCompleted =>
      if x.pc.Finished? {
        var n := Notice(JobCompleted, x.task.job, d);
        PutNotice(s, n);
        MoveScan(s, s.(notices := s.notices + [n]), d, x.(pc := Ending));
      }
    case Throw(why) => MoveScan(s, s, d, x.(pc := Raised(why)));
    case _ =>
  }

  lemma SettleScan(s: State, d: Delivery, q: Queue<Task>)
    requires Inv(s) && Sound(q) && Extends(s.scanQueue, q) && |q| == |s.scanQueue|
    ensures var s' := s.(scanQueue := q, scans := s.scans - {d}); Inv(s') && Grows(s, s')
  {
    var t := s.(scanQueue := q);
    ChangeScanQueue(s, q);
    DropScan(t, d);
    GrowsTransitive(s, t, t.(scans := s.scans - {d}));
  }

  lemma SettlingKeeps(s: State, d: Delivery, a: ScanAction)
    requires Inv(s) && d in s.scans && (a.AckScan? || a.RejectTooLong? || a.GiveBack?)
    ensures var s' := SettleStep(s, d, s.scans[d], a); Inv(s') && Grows(s, s')
  {
    hide Inv, Grows, Sound, Extends, Ack, Discard, Return;
    Facts(s);
    var q := if a.AckScan? then Ack(s.scanQueue, d.msg, d.tag)
             else if a.RejectTooLong? then Discard(s.scanQueue, d.msg, d.tag)
             else Return(s.scanQueue, d.msg, d.tag);
    SettlingIsSound(s.scanQueue, d.msg, d.tag, q);
    SettleScan(s, d, q);
  }

  lemma RescueKeeps(s: State, d: Delivery, saved: bool)
    requires Inv(s) && d in s.scans
    ensures var s' := HandleStep(s, d, s.scans[d], Rescue(saved)); Inv(s') && Grows(s, s')
  {
    hide Inv, Grows, Stem;
    Facts(s);
    NothingGrows(s);
    ScanOf(s, d);
    var x := s.scans[d];
    if x.pc.Raised? {
      var st := if x.pc.failure.ConnectionDropped? then QueuedForRetry else Failed;
      MoveScan(s, s, d, x.(pc := Failing(Other)));
      WriteStatus(s, x.task.job, x.seen, st);
      MoveScan(s, s.(jobs := SetStatus(s.jobs, x.task.job, x.seen, st)), d, x.(seen := st, pc := Failing(x.pc.failure)));
    }
  }

  lemma NoticeFailedKeeps(s: State, d: Delivery)
    requires Inv(s) && d in s.scans
    ensures var s' := HandleStep(s, d, s.scans[d], NoticeFailed); Inv(s') && Grows(s, s')
  {
    hide Inv, Grows, LastDelivery;
    Facts(s);
    NothingGrows(s);
    ScanOf(s, d);
    var x := s.scans[d];
    if x.pc == Failing(Other) && LastDelivery(d) {
      var n := Notice(JobFailed, x.task.job, d);
      PutNotice(s, n);
      MoveScan(s, s.(notices := s.notices + [n]), d, x.(pc := Noticed));
    }
  }

  lemma ReportKeeps(s: State, d: Delivery)
    requires Inv(s) && d in s.scans
    ensures var s' := HandleStep(s, d, s.scans[d], Report); Inv(s') && Grows(s, s')
  {
    hide Inv, Grows, LastDelivery, Stem;
    Facts(s);
    NothingGrows(s);
    ScanOf(s, d);
    var x := s.scans[d];
    if MayReport(x.pc, d) { MoveScan(s, s, d, x.(pc := Reported(ReportFor(x.pc)))); }
  }

  lemma HandlingKeeps(s: State, d: Delivery, a: ScanAction)
    requires Inv(s) && d in s.scans
    ensures var s' := HandleStep(s, d, s.scans[d], a); Inv(s') && Grows(s, s')
  {
    hide Inv, Grows;
    NothingGrows(s);
    match a
    case Rescue(saved) => RescueKeeps(s, d, saved);
    case NoticeFailed => NoticeFailedKeeps(s, d);
    case Report => ReportKeeps(s, d);
    case _ =>
  }

  lemma TakeScanKeeps(s: State, d: Delivery)
    requires Inv(s)
    ensures var s' := ScanStep(s, d, TakeScan); Inv(s') && Grows(s, s')
  {
    Facts(s);
    if Waiting(s.scanQueue, d.msg) && d.tag == s.scanQueue[d.msg].deliveries + 1 && d !in s.scans {
      var t := s.(scanQueue := Deliver(s.scanQueue, d.msg));
      assert TaskOk(s, s.scanQueue[d.msg].body);
      DeliveringIsSound(s.scanQueue, d.msg);
      hide Inv, Sound, Extends;
      ChangeScanQueue(s, t.scanQueue);
      MoveScan(s, t, d, Scan(s.scanQueue[d.msg].body, 0, Uploads, Pending, Received));
    }
  }

  lemma ScanKeeps(s: State, d: Delivery, a: ScanAction)
    requires Inv(s)
    ensures var s' := ScanStep(s, d, a); Inv(s') && Grows(s, s')
  {
    hide Inv, Grows, ReadStep, JudgeStep, QuarantineStep, PassStep, SettleStep, HandleStep;
    Facts(s);
    if a.TakeScan? {
      TakeScanKeeps(s, d);
    } else if d in s.scans {
      DropScan(s, d);
      if InTransaction(s.scans[d].pc) {
        ReadingKeeps(s, d, a);
        JudgingKeeps(s, d, a);
        QuarantiningKeeps(s, d, a);
        PassingKeeps(s, d, a);
      } else {
        HandlingKeeps(s, d, a);
        if a.AckScan? || a.RejectTooLong? || a.GiveBack? { SettlingKeeps(s, d, a); }
      }
    }
  }

  lemma MoveImage(s: State, t: State, d: Delivery, x: ImageRun)
    requires Inv(t) && Grows(s, t) && ImageOk(t, d, x)
    ensures Inv(AtImage(t, d, x)) && Grows(s, AtImage(t, d, x))
  {
    PutImage(t, d, x);
    GrowsTransitive(s, t, AtImage(t, d, x));
  }

  lemma SettleImage(s: State, d: Delivery, q: Queue<ImageTask>)
    requires Inv(s) && Sound(q) && Extends(s.imageQueue, q) && |q| == |s.imageQueue|
    ensures var s' := s.(imageQueue := q, images := s.images - {d}); Inv(s') && Grows(s, s')
  {
    var t := s.(imageQueue := q);
    ChangeImageQueue(s, q);
    DropImage(t, d);
    GrowsTransitive(s, t, t.(images := s.images - {d}));
  }

  lemma OpenKeeps(s: State, d: Delivery)
    requires Inv(s) && d in s.images
    ensures var s' := ImageBody(s, d, s.images[d], Open); Inv(s') && Grows(s, s')
  {
    hide Inv, Grows;
    Facts(s);
    NothingGrows(s);
    ImageOf(s, d);
    var x := s.images[d];
    if x.pc.Arrived? {
      var row := s.files[s.jobs[x.task.job].file];
      MoveImage(s, s, d, x.(file := s.jobs[x.task.job].file, uploadId := row.uploadId, bucket := row.bucket,
                            seen := s.jobs[x.task.job].status, pc := Opened));
    }
  }

  lemma StoreDerivativeKeeps(s: State, d: Delivery)
    requires Inv(s) && d in s.images
    ensures var s' := ImageBody(s, d, s.images[d], StoreDerivative); Inv(s') && Grows(s, s')
  {
    hide Inv, Grows, Names;
    Facts(s);
    NothingGrows(s);
    ImageOf(s, d);
    var x := s.images[d];
    if x.pc.Rendering? && x.pc.stored < |Names()| {
      var name := Derivative(x.uploadId, x.pc.stored);
      PutDerivative(s, name, x.task.job);
      MoveImage(s, s.(processed := s.processed[name := x.task.job]), d, x.(pc := Rendering(x.pc.stored + 1)));
    }
  }

  lemma ImageBodyKeeps(s: State, d: Delivery, a: ImageAction)
    requires Inv(s) && d in s.images
    ensures var s' := ImageBody(s, d, s.images[d], a); Inv(s') && Grows(s, s')
  {
    hide Inv, Grows, Sound, Extends, Ack, Return;
    Facts(s);
    NothingGrows(s);
    ImageOf(s, d);
    var x := s.images[d];
    match a
    case Open => OpenKeeps(s, d);
    case MarkProcessing =>
      if x.pc.Opened? {
        WriteStatus(s, x.task.job, x.seen, Processing);
        MoveImage(s, s.(jobs := SetStatus(s.jobs, x.task.job, x.seen, Processing)), d, x.(seen := Processing, pc := Working));
      }
    case Fetch =>
      if x.pc.Working? {
        MoveImage(s, s, d, x.(pc := Broken));
        MoveImage(s, s, d, x.(pc := Fetched));
      }
    case Render => if x.pc.Fetched? { MoveImage(s, s, d, x.(pc := Rendering(0))); }
    case StoreDerivative => StoreDerivativeKeeps(s, d);
    case Save => if x.pc.Rendering? && x.pc.stored == |Names()| { SaveKeeps(s, d); }
    case FinishImage => if x.pc.Saved? { MoveImage(s, s, d, x.(pc := Finishing)); }
    case Break => MoveImage(s, s, d, x.(pc := Broken));
    case Swallow =>
      SettlingIsSound(s.imageQueue, d.msg, d.tag, Ack(s.imageQueue, d.msg, d.tag));
      SettleImage(s, d, Ack(s.imageQueue, d.msg, d.tag));
    case _ =>
  }

  lemma SaveKeeps(s: State, d: Delivery)
    requires Inv(s) && d in s.images && s.images[d].pc == Rendering(|Names()|)
    ensures var s' := ImageBody(s, d, s.images[d], Save); Inv(s') && Grows(s, s')
  {
    hide Inv, Grows;
    Facts(s);
    var x := s.images[d];
    var j := x.task.job;
    ImageOf(s, d);
    var t := s.(jobs := SetStatus(s.jobs, j, x.seen, Completed));
    WriteStatus(s, j, x.seen, Completed);
    var u := t.(files := SetBucket(t.files, x.file, x.bucket, Processed));
    WriteBucket(t, x.file, x.bucket, Processed);
    GrowsTransitive(s, t, u);
    MoveImage(s, u, d, x.(seen := Completed, bucket := Processed, pc := Saved));
  }

  lemma ImageTailKeeps(s: State, d: Delivery, a: ImageAction)
    requires Inv(s) && d in s.images
    ensures var s' := ImageTail(s, d, s.images[d], a); Inv(s') && Grows(s, s')
  {
    hide Inv, Grows, Sound, Extends, Ack, Return;
    Facts(s);
    var x := s.images[d];
    ImageOf(s, d);
    if a.AckImage? {
      SettlingIsSound(s.imageQueue, d.msg, d.tag, Ack(s.imageQueue, d.msg, d.tag));
      SettleImage(s, d, Ack(s.imageQueue, d.msg, d.tag));
    } else if a.GiveBackImage? {
      SettlingIsSound(s.imageQueue, d.msg, d.tag, Return(s.imageQueue, d.msg, d.tag));
      SettleImage(s, d, Return(s.imageQueue, d.msg, d.tag));
    } else if a.Tell? && x.pc.Broken? {
      MoveImage(s, s, d, x.(pc := Told(if LastDelivery(d) then SaysDeadLetter else SaysRetry)));
    }
  }

  lemma TakeImageKeeps(s: State, d: Delivery)
    requires Inv(s)
    ensures var s' := ImageStep(s, d, TakeImage); Inv(s') && Grows(s, s')
  {
    Facts(s);
    if Waiting(s.imageQueue, d.msg) && d.tag == s.imageQueue[d.msg].deliveries + 1 && d !in s.images {
      var t := s.(imageQueue := Deliver(s.imageQueue, d.msg));
      assert ImageTaskOk(s, s.imageQueue[d.msg].body);
      DeliveringIsSound(s.imageQueue, d.msg);
      hide Inv, Sound, Extends;
      ChangeImageQueue(s, t.imageQueue);
      MoveImage(s, t, d, ImageRun(s.imageQueue[d.msg].body.task, 0, "", Uploads, Pending, Arrived));
    }
  }

  lemma ImageKeeps(s: State, d: Delivery, a: ImageAction)
    requires Inv(s)
    ensures var s' := ImageStep(s, d, a); Inv(s') && Grows(s, s')
  {
    hide Inv, Grows;
    Facts(s);
    if a.TakeImage? {
      TakeImageKeeps(s, d);
    } else if d in s.images {
      DropImage(s, d);
      ImageBodyKeeps(s, d, a);
      ImageTailKeeps(s, d, a);
    }
  }

  /** Every event keeps the invariant and takes nothing back. */
  lemma StepKeeps(s: State, e: Event)
    requires Inv(s)
    ensures Inv(Step(s, e)) && Grows(s, Step(s, e))
  {
    hide Inv, Grows;
    Facts(s);
    match e
    case OfRequest(u, a) => UploadKeeps(s, u, a);
    case OfScan(d, a) => ScanKeeps(s, d, a);
    case OfImage(d, a) => ImageKeeps(s, d, a);
    case LoseScan(d) => ChangeScanQueue(s, Return(s.scanQueue, d.msg, d.tag));
    case LoseImage(d) => ChangeImageQueue(s, Return(s.imageQueue, d.msg, d.tag));
  }

  /** So the invariant holds in every state of every run. */
  lemma EmptyIsOk()
    ensures Inv(EMPTY)
  {
  }

  lemma {:induction false} RunKeeps(states: seq<State>, log: seq<Event>, n: nat)
    requires IsRun(states, log) && n <= |log|
    ensures Inv(states[n])
  {
    hide Inv, Step;
    if n == 0 {
      EmptyIsOk();
    } else {
      RunKeeps(states, log, n - 1);
      assert states[n - 1 + 1] == Step(states[n - 1], log[n - 1]);
      StepKeeps(states[n - 1], log[n - 1]);
    }
  }

  lemma {:induction false} RunGrows(states: seq<State>, log: seq<Event>, m: nat, n: nat)
    requires IsRun(states, log) && m <= n <= |log|
    ensures Grows(states[m], states[n])
  {
    hide Inv, Step, Grows;
    RunKeeps(states, log, n);
    if m < n {
      RunGrows(states, log, m, n - 1);
      RunKeeps(states, log, n - 1);
      assert states[n - 1 + 1] == Step(states[n - 1], log[n - 1]);
      StepKeeps(states[n - 1], log[n - 1]);
      GrowsTransitive(states[m], states[n - 1], states[n]);
    } else {
      NothingGrows(states[n]);
    }
  }
}
