/** The upload, scan and image pipeline as a protocol machine.

    A state holds the buckets, the two tables, the two work queues and every handler
    that is running; an event is one atomic effect of one handler (a commit, an S3
    call, a publish, a settle), the crash of a handler, or the broker taking a message
    back.  Any interleaving of events is a run.  A handler whose message was taken back
    may keep running: the broker's view and the worker's are not synchronised.

    An exception can be raised at every effect, so effects that only feed the audit log
    are not separate events.  An event that is not enabled leaves the state unchanged. */
module Pipeline {
  import opened Broker
  import opened Keys

  type JobId = nat
  type FileId = nat
  type Developer = nat

  datatype Bucket = Uploads | Quarantine | Processed

  datatype Status =
    Pending | Scanning | Clean | Infected | Quarantined | Processing | Completed | Failed | QueuedForRetry

  datatype FileRow = FileRow(ext: string, uploadId: string, location: Key, developer: Developer, bucket: Bucket)

  datatype JobRow = JobRow(file: FileId, status: Status)

  /** The JSON payload of a scan task; the scanner forwards it unchanged as image task. */
  datatype Task = Task(job: JobId, key: Key, developer: Developer)

  /** An image task, with the scan delivery that published it. */
  datatype ImageTask = ImageTask(task: Task, source: Delivery)

  /** Messages to the webhook dispatcher. */
  datatype NoticeKind = JobQuarantined | JobCompleted | JobFailed
  datatype Notice = Notice(event: NoticeKind, job: JobId, source: Delivery)

  datatype Verdict = Ok | Found

  /** ConnectionDropped is clamd's ConnectionError, TooLong its BufferTooLongError. */
  datatype Failure = ConnectionDropped | TooLong | Other

  /** The action text of the audit entry written just before a message is given back. */
  datatype Report = SaysDeadLetter | SaysRetry | SaysQueued

  datatype RequestPc = Hashed | Checked | Stored | Committed(job: JobId) | Announced
  datatype Request = Request(hash: string, ext: string, developer: Developer, pc: RequestPc)

  datatype ScanPc =
    | Received | Loaded | Marked | Located | Spooled | Judged(verdict: Verdict) | Recorded(verdict: Verdict)
    | Copied | Verified | Deleted | Sealed | Forwarded | Finished | Ending | NoJob
    | Raised(failure: Failure) | Failing(failure: Failure) | Noticed | Reported(report: Report)

  /** `file` and `bucket` are the FileMetaData object in the session, `seen` the status
      of its Job object: the session writes a column only when it changes the value. */
  datatype Scan = Scan(task: Task, file: FileId, bucket: Bucket, seen: Status, pc: ScanPc)

  datatype ImagePc =
    | Arrived | Opened | Working | Fetched | Rendering(stored: nat) | Saved | Finishing | Mismatch
    | Broken | Told(report: Report)

  datatype ImageRun = ImageRun(task: Task, file: FileId, uploadId: string, bucket: Bucket, seen: Status, pc: ImagePc)

  /** `processed` maps each derivative to the job whose run stored it last.  `cleared`
      is the history of OK verdicts: the jobs some scan has answered OK for. */
  datatype State = State(
    uploads: set<Key>, quarantine: set<Key>, processed: map<string, JobId>,
    files: map<FileId, FileRow>, jobs: map<JobId, JobRow>,
    scanQueue: Queue<Task>, imageQueue: Queue<ImageTask>, notices: seq<Notice>,
    requests: map<nat, Request>, scans: map<Delivery, Scan>, images: map<Delivery, ImageRun>,
    cleared: set<JobId>)

  const EMPTY := State({}, {}, map[], map[], map[], [], [], [], map[], map[], map[], {})

  datatype UploadAction =
    | Receive(hash: string, ext: string, developer: Developer) | Deduplicate(earlier: JobId) | NoDuplicate
    | Store | CommitRows(job: JobId, file: FileId) | PublishScan | Respond | AbortRequest

  datatype ScanAction =
    | TakeScan | LoadJob | MarkScanning | Locate(file: FileId) | Spool | Judge(verdict: Verdict) | Record
    | Copy | Head | Delete | Seal | NoticeQuarantined | Forward | Complete | NoticeCompleted | EndScan | AckScan
    | Throw(failure: Failure) | Rescue(saved: bool) | NoticeFailed | Report | RejectTooLong | GiveBack | CrashScan

  datatype ImageAction =
    | TakeImage | Open | MarkProcessing | Fetch | Render | StoreDerivative | Save | FinishImage | AckImage
    | Swallow | Break | Tell | GiveBackImage | CrashImage

  datatype Event =
    | OfRequest(request: nat, upload: UploadAction)
    | OfScan(delivery: Delivery, scan: ScanAction)
    | OfImage(delivery: Delivery, image: ImageAction)
    | LoseScan(delivery: Delivery)
    | LoseImage(delivery: Delivery)

  /** `job.status = new; await db.commit()` on a session that last saw `seen`. */
  function SetStatus(jobs: map<JobId, JobRow>, j: JobId, seen: Status, new': Status): map<JobId, JobRow> {
    if j in jobs && seen != new' then jobs[j := jobs[j].(status := new')] else jobs
  }

  function SetBucket(files: map<FileId, FileRow>, f: FileId, seen: Bucket, new': Bucket): map<FileId, FileRow> {
    if f in files && seen != new' then files[f := files[f].(bucket := new')] else files
  }

  /** `select(FileMetaData).where(storage_location == key)` */
  function Matches(files: map<FileId, FileRow>, key: Key): set<FileId> {
    set f | f in files && files[f].location == key
  }

  /** The jobs of a developer with a digest; the query takes the one updated last, and which
      one that is is left open.  The digest covers only what validate_mime has left unread
      behind its 2048 bytes, so equal digests do not mean equal contents. */
  function EarlierJobs(jobs: map<JobId, JobRow>, files: map<FileId, FileRow>, hash: string, developer: Developer): set<JobId> {
    set j | j in jobs && jobs[j].file in files && files[jobs[j].file].uploadId == hash && files[jobs[j].file].developer == developer
  }

  /** The statuses for which a repeated upload is answered without a new job. */
  predicate Blocks(st: Status) {
    st in {Scanning, Processing, Completed, Pending, Clean}
  }

  function KeyOf(r: Request): Key { r.hash + r.ext }

  /***** api/main.py: upload_file *****/

  function UploadStep(s: State, u: nat, a: UploadAction): State {
    if a.Receive? then
      if u !in s.requests && WellFormed(a.hash, a.ext) then
        s.(requests := s.requests[u := Request(a.hash, a.ext, a.developer, Hashed)])
      else s
    else if u !in s.requests then s
    else
      var r := s.requests[u];
      match a
      case Deduplicate(j) =>
        if r.pc.Hashed? && j in EarlierJobs(s.jobs, s.files, r.hash, r.developer) then
          if Blocks(s.jobs[j].status) then s.(requests := s.requests - {u})
          else s.(requests := s.requests[u := r.(pc := Checked)])
        else s
      case NoDuplicate =>
        if r.pc.Hashed? && EarlierJobs(s.jobs, s.files, r.hash, r.developer) == {} then
          s.(requests := s.requests[u := r.(pc := Checked)])
        else s
      case Store =>
        if r.pc.Checked? then
          s.(uploads := s.uploads + {KeyOf(r)}, requests := s.requests[u := r.(pc := Stored)])
        else s
      case CommitRows(j, f) =>
        if r.pc.Stored? && j !in s.jobs && f !in s.files then
          s.(files := s.files[f := FileRow(r.ext, r.hash, KeyOf(r), r.developer, Uploads)],
             jobs := s.jobs[j := JobRow(f, Pending)],
             requests := s.requests[u := r.(pc := Committed(j))])
        else s
      case PublishScan =>
        if r.pc.Committed? then
          s.(scanQueue := Publish(s.scanQueue, Task(r.pc.job, KeyOf(r), r.developer)),
             requests := s.requests[u := r.(pc := Announced)])
        else s
      case Respond => if r.pc.Announced? then s.(requests := s.requests - {u}) else s
      case AbortRequest => s.(requests := s.requests - {u})
      case Receive(_, _, _) => s
  }

  /***** security_scanner/worker.py: scan_file *****/

  /** The effects inside `async with job_transaction(...)`. */
  predicate InTransaction(pc: ScanPc) {
    !(pc.Ending? || pc.NoJob? || pc.Raised? || pc.Failing? || pc.Noticed? || pc.Reported?)
  }

  /** x-delivery-count of a delivery, which the failure report compares with MAX_DELIVERY_COUNT. */
  function DeliveryCount(d: Delivery): int { d.tag - 1 }

  predicate LastDelivery(d: Delivery) { DeliveryCount(d) >= DELIVERY_LIMIT }

  function At(s: State, d: Delivery, x: Scan): State { s.(scans := s.scans[d := x]) }

  function ScanStep(s: State, d: Delivery, a: ScanAction): State {
    if a.TakeScan? then
      if Waiting(s.scanQueue, d.msg) && d.tag == s.scanQueue[d.msg].deliveries + 1 && d !in s.scans then
        s.(scanQueue := Deliver(s.scanQueue, d.msg),
           scans := s.scans[d := Scan(s.scanQueue[d.msg].body, 0, Uploads, Pending, Received)])
      else s
    else if d !in s.scans then s
    else if a.CrashScan? then s.(scans := s.scans - {d})
    else
      var x := s.scans[d];
      if InTransaction(x.pc) then ScanBody(s, d, x, a) else ScanTail(s, d, x, a)
  }

  function ScanBody(s: State, d: Delivery, x: Scan, a: ScanAction): State {
    if a.LoadJob? || a.MarkScanning? || a.Locate? then ReadStep(s, d, x, a)
    else if a.Spool? || a.Judge? || a.Record? then JudgeStep(s, d, x, a)
    else if a.Copy? || a.Head? || a.Delete? || a.Seal? || a.NoticeQuarantined? then QuarantineStep(s, d, x, a)
    else PassStep(s, d, x, a)
  }

  /** Finding the job and the file row. */
  function ReadStep(s: State, d: Delivery, x: Scan, a: ScanAction): State {
    var j := x.task.job;
    match a
    case LoadJob =>
      if !x.pc.Received? then s
      else if j in s.jobs then At(s, d, x.(seen := s.jobs[j].status, pc := Loaded))
      else At(s, d, x.(pc := NoJob))
    case MarkScanning =>
      if x.pc.Loaded? then
        At(s, d, x.(seen := Scanning, pc := Marked)).(jobs := SetStatus(s.jobs, j, x.seen, Scanning))
      else s
    case Locate(f) =>
      // scalar_one_or_none: no row and several rows both raise.
      var found := Matches(s.files, x.task.key);
      if !x.pc.Marked? then s
      else if found == {f} && f in s.files then At(s, d, x.(file := f, bucket := s.files[f].bucket, pc := Located))
      else if |found| != 1 then At(s, d, x.(pc := Raised(Other)))
      else s
    case _ => s
  }

  /** Reading the object, scanning it, committing the verdict. */
  function JudgeStep(s: State, d: Delivery, x: Scan, a: ScanAction): State {
    var j := x.task.job;
    match a
    case Spool =>
      if !x.pc.Located? then s
      else if x.task.key in s.uploads then At(s, d, x.(pc := Spooled))
      else At(s, d, x.(pc := Raised(Other)))
    case Judge(v) =>
      if x.pc.Spooled? then
        At(s, d, x.(pc := Judged(v))).(cleared := if v.Ok? then s.cleared + {j} else s.cleared)
      else s
    case Record =>
      if x.pc.Judged? then
        var st := if x.pc.verdict.Ok? then Clean else Infected;
        At(s, d, x.(seen := st, pc := Recorded(x.pc.verdict))).(jobs := SetStatus(s.jobs, j, x.seen, st))
      else s
    case _ => s
  }

  /** The infected branch: move_to_quarantine, the commit, the webhook. */
  function QuarantineStep(s: State, d: Delivery, x: Scan, a: ScanAction): State {
    var j := x.task.job;
    var key := x.task.key;
    match a
    case Copy =>
      if x.pc != Recorded(Found) then s
      else if key in s.uploads then At(s, d, x.(pc := Copied)).(quarantine := s.quarantine + {key})
      else At(s, d, x.(pc := Raised(Other)))
    case Head =>
      if !x.pc.Copied? then s
      else if key in s.quarantine then At(s, d, x.(pc := Verified))
      else At(s, d, x.(pc := Raised(Other)))
    case Delete =>
      if x.pc.Verified? then At(s, d, x.(pc := Deleted)).(uploads := s.uploads - {key}) else s
    case Seal =>
      if x.pc.Deleted? then
        At(s, d, x.(seen := Quarantined, bucket := Quarantine, pc := Sealed))
        .(files := SetBucket(s.files, x.file, x.bucket, Quarantine), jobs := SetStatus(s.jobs, j, x.seen, Quarantined))
      else s
    case NoticeQuarantined =>
      if x.pc.Sealed? then
        At(s, d, x.(pc := Ending)).(notices := s.notices + [Notice(JobQuarantined, j, d)])
      else s
    case _ => s
  }

  /** The clean branch, and exceptions. */
  function PassStep(s: State, d: Delivery, x: Scan, a: ScanAction): State {
    var j := x.task.job;
    match a
    case Forward =>
      if x.pc == Recorded(Ok) && x.file in s.files && KindOf(s.files[x.file].ext).Image? then
        At(s, d, x.(pc := Forwarded)).(imageQueue := Publish(s.imageQueue, ImageTask(x.task, d)))
      else s
    case EndScan => if x.pc.Forwarded? then At(s, d, x.(pc := Ending)) else s
    case Complete =>
      if x.pc == Recorded(Ok) && x.file in s.files && !KindOf(s.files[x.file].ext).Image? then
        At(s, d, x.(seen := Completed, pc := Finished)).(jobs := SetStatus(s.jobs, j, x.seen, Completed))
      else s
    case NoticeCompleted =>
      if x.pc.Finished? then
        At(s, d, x.(pc := Ending)).(notices := s.notices + [Notice(JobCompleted, j, d)])
      else s
    case Throw(why) =>
      if why.Other? || x.pc.Spooled? then At(s, d, x.(pc := Raised(why))) else s
    case _ => s
  }

  /** What follows the transaction: the exception handlers, or settling the message. */
  function ScanTail(s: State, d: Delivery, x: Scan, a: ScanAction): State {
    if a.AckScan? || a.RejectTooLong? || a.GiveBack? then SettleStep(s, d, x, a) else HandleStep(s, d, x, a)
  }

  function SettleStep(s: State, d: Delivery, x: Scan, a: ScanAction): State {
    var done := s.(scans := s.scans - {d});
    match a
    case AckScan =>
      if x.pc.Ending? || x.pc.NoJob? then done.(scanQueue := Ack(s.scanQueue, d.msg, d.tag)) else s
    case RejectTooLong =>
      if x.pc == Failing(TooLong) then done.(scanQueue := Discard(s.scanQueue, d.msg, d.tag)) else s
    case GiveBack =>
      if x.pc.Failing? || x.pc.Noticed? || x.pc.Reported? then
        done.(scanQueue := Return(s.scanQueue, d.msg, d.tag))
      else s
    case _ => s
  }

  /** A dropped connection is always reported as queued for a retry, a last delivery as dead. */
  predicate MayReport(pc: ScanPc, d: Delivery) {
    pc.Noticed? || pc == Failing(ConnectionDropped) || (pc == Failing(Other) && !LastDelivery(d))
  }

  function ReportFor(pc: ScanPc): Report {
    if pc.Noticed? then SaysDeadLetter else if pc == Failing(ConnectionDropped) then SaysQueued else SaysRetry
  }

  function HandleStep(s: State, d: Delivery, x: Scan, a: ScanAction): State {
    match a
    case Rescue(saved) =>
      // The handler of job_transaction; if it fails itself, its own exception goes on.
      if !x.pc.Raised? then s
      else if !saved then At(s, d, x.(pc := Failing(Other)))
      else
        var st := if x.pc.failure.ConnectionDropped? then QueuedForRetry else Failed;
        At(s, d, x.(seen := st, pc := Failing(x.pc.failure))).(jobs := SetStatus(s.jobs, x.task.job, x.seen, st))
    case NoticeFailed =>
      if x.pc == Failing(Other) && LastDelivery(d) then
        At(s, d, x.(pc := Noticed)).(notices := s.notices + [Notice(JobFailed, x.task.job, d)])
      else s
    case Report =>
      if MayReport(x.pc, d) then At(s, d, x.(pc := Reported(ReportFor(x.pc)))) else s
    case _ => s
  }

  /***** image_processor/worker.py: process_image *****/

  function AtImage(s: State, d: Delivery, x: ImageRun): State { s.(images := s.images[d := x]) }

  function ImageStep(s: State, d: Delivery, a: ImageAction): State {
    if a.TakeImage? then
      if Waiting(s.imageQueue, d.msg) && d.tag == s.imageQueue[d.msg].deliveries + 1 && d !in s.images then
        s.(imageQueue := Deliver(s.imageQueue, d.msg),
           images := s.images[d := ImageRun(s.imageQueue[d.msg].body.task, 0, "", Uploads, Pending, Arrived)])
      else s
    else if d !in s.images then s
    else if a.CrashImage? then s.(images := s.images - {d})
    else
      var x := s.images[d];
      if x.pc.Finishing? || x.pc.Mismatch? || x.pc.Broken? || x.pc.Told? then ImageTail(s, d, x, a)
      else ImageBody(s, d, x, a)
  }

  function ImageBody(s: State, d: Delivery, x: ImageRun, a: ImageAction): State {
    var j := x.task.job;
    match a
    case Open =>
      if !x.pc.Arrived? then s
      else if j in s.jobs && s.jobs[j].file in s.files
              && s.files[s.jobs[j].file].uploadId == Stem(x.task.key) then
        var row := s.files[s.jobs[j].file];
        AtImage(s, d, x.(file := s.jobs[j].file, uploadId := row.uploadId, bucket := row.bucket,
                         seen := s.jobs[j].status, pc := Opened))
      else AtImage(s, d, x.(pc := Mismatch))
    case MarkProcessing =>
      if x.pc.Opened? then
        AtImage(s, d, x.(seen := Processing, pc := Working)).(jobs := SetStatus(s.jobs, j, x.seen, Processing))
      else s
    case Fetch =>
      if !x.pc.Working? then s
      else if x.task.key in s.uploads then AtImage(s, d, x.(pc := Fetched))
      else AtImage(s, d, x.(pc := Broken))
    case Render => if x.pc.Fetched? then AtImage(s, d, x.(pc := Rendering(0))) else s
    case StoreDerivative =>
      if x.pc.Rendering? && x.pc.stored < |Names()| then
        AtImage(s, d, x.(pc := Rendering(x.pc.stored + 1)))
        .(processed := s.processed[Derivative(x.uploadId, x.pc.stored) := j])
      else s
    case Save =>
      if x.pc.Rendering? && x.pc.stored == |Names()| then
        AtImage(s, d, x.(seen := Completed, bucket := Processed, pc := Saved))
        .(files := SetBucket(s.files, x.file, x.bucket, Processed), jobs := SetStatus(s.jobs, j, x.seen, Completed))
      else s
    case FinishImage => if x.pc.Saved? then AtImage(s, d, x.(pc := Finishing)) else s
    // MemoryError, CancelledError and KeyboardInterrupt end the handler normally.
    case Swallow => s.(images := s.images - {d}, imageQueue := Ack(s.imageQueue, d.msg, d.tag))
    case Break => AtImage(s, d, x.(pc := Broken))
    case _ => s
  }

  function ImageTail(s: State, d: Delivery, x: ImageRun, a: ImageAction): State {
    var done := s.(images := s.images - {d});
    match a
    case AckImage =>
      if x.pc.Finishing? || x.pc.Mismatch? then done.(imageQueue := Ack(s.imageQueue, d.msg, d.tag)) else s
    case Tell =>
      if x.pc.Broken? then
        AtImage(s, d, x.(pc := Told(if LastDelivery(d) then SaysDeadLetter else SaysRetry)))
      else s
    case GiveBackImage =>
      if x.pc.Broken? || x.pc.Told? then done.(imageQueue := Return(s.imageQueue, d.msg, d.tag)) else s
    case _ => s
  }

  /***** Runs *****/

  function Step(s: State, e: Event): State {
    match e
    case OfRequest(u, a) => UploadStep(s, u, a)
    case OfScan(d, a) => ScanStep(s, d, a)
    case OfImage(d, a) => ImageStep(s, d, a)
    case LoseScan(d) => s.(scanQueue := Return(s.scanQueue, d.msg, d.tag))
    case LoseImage(d) => s.(imageQueue := Return(s.imageQueue, d.msg, d.tag))
  }

  /** `states[n]` is the state after the first `n` events of `log`. */
  ghost predicate IsRun(states: seq<State>, log: seq<Event>) {
    && |states| == |log| + 1
    && states[0] == EMPTY
    && forall i {:trigger log[i]} :: 0 <= i < |log| ==> states[i + 1] == Step(states[i], log[i])
  }
}
