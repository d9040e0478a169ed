/** The three handlers as the sequential code they are, running on the shared services.

    Before each effect the other handlers may do anything they can (`Others`), and the
    effect may raise or the process may die instead (`Await`).  The ghost `log` shows
    that the code takes no step the protocol machine does not have, so whatever is
    proved of runs holds before and after every line below. */
module PipelineCluster {
  import opened Broker
  import opened Keys
  import opened Pipeline
  import opened PipelineFrames
  import opened PipelineInvariant
  import opened PipelineTheorems
  import opened Wrappers

  /** How an `await` ends. */
  datatype Fate = Returned | RaisedHere | Died

  datatype Outcome = InQuarantine | SentToImages | Done | GivenBack | Rejected | Crashed

  lemma Throwing(s: State, d: Delivery, why: Failure)
    requires d in s.scans && InTransaction(s.scans[d].pc) && (why.Other? || s.scans[d].pc.Spooled?)
    ensures Step(s, OfScan(d, Throw(why))) == At(s, d, s.scans[d].(pc := Raised(why)))
  {
  }

  lemma Answering(s: State, d: Delivery, v: Verdict)
    requires d in s.scans && s.scans[d].pc.Spooled?
    ensures Step(s, OfScan(d, Judge(v))) ==
            At(s, d, s.scans[d].(pc := Judged(v))).(cleared := if v.Ok? then s.cleared + {s.scans[d].task.job} else s.cleared)
  {
  }

  lemma Forwarding(s: State, d: Delivery)
    requires d in s.scans && s.scans[d].pc == Recorded(Ok) && s.scans[d].file in s.files && KindOf(s.files[s.scans[d].file].ext).Image?
    ensures Step(s, OfScan(d, Forward)) == At(s, d, s.scans[d].(pc := Forwarded)).(imageQueue := Publish(s.imageQueue, ImageTask(s.scans[d].task, d)))
  {
    hide KindOf;
  }

  lemma SettingIs(jobs: map<JobId, JobRow>, j: JobId, seen: Status, st: Status)
    requires j in jobs
    ensures SetStatus(jobs, j, seen, st) == if seen == st then jobs else jobs[j := JobRow(jobs[j].file, st)]
  {
  }

  lemma ShelvingIs(files: map<FileId, FileRow>, f: FileId, seen: Bucket, b: Bucket)
    requires f in files
    ensures SetBucket(files, f, seen, b) == if seen == b then files else files[f := files[f].(bucket := b)]
  {
  }

  lemma Sealing(s: State, d: Delivery)
    requires d in s.scans && s.scans[d].pc.Deleted?
    ensures var x := s.scans[d];
            Step(s, OfScan(d, Seal)) ==
            At(s, d, x.(seen := Quarantined, bucket := Quarantine, pc := Sealed))
            .(files := SetBucket(s.files, x.file, x.bucket, Quarantine), jobs := SetStatus(s.jobs, x.task.job, x.seen, Quarantined))
  {
    hide SetStatus, SetBucket, ReadStep, JudgeStep, PassStep;
  }

  lemma Rescuing(s: State, d: Delivery, saved: bool)
    requires d in s.scans && s.scans[d].pc.Raised?
    ensures var x := s.scans[d];
            var st := if x.pc.failure == ConnectionDropped then QueuedForRetry else Failed;
            Step(s, OfScan(d, Rescue(saved))) ==
            if saved then At(s, d, x.(seen := st, pc := Failing(x.pc.failure))).(jobs := SetStatus(s.jobs, x.task.job, x.seen, st))
            else At(s, d, x.(pc := Failing(Other)))
  {
    hide SetStatus, ReadStep, JudgeStep, QuarantineStep, PassStep, SettleStep;
  }

  lemma Noticing(s: State, d: Delivery)
    requires d in s.scans && s.scans[d].pc == Failing(Other) && LastDelivery(d)
    ensures Step(s, OfScan(d, ScanAction.NoticeFailed)) ==
            At(s, d, s.scans[d].(pc := Noticed)).(notices := s.notices + [Notice(JobFailed, s.scans[d].task.job, d)])
  {
    hide LastDelivery;
  }

  /** What the failure handlers report before they give the message back. */
  function ReportAfter(failure: Failure, d: Delivery): Report {
    if failure.ConnectionDropped? then SaysQueued else if LastDelivery(d) then SaysDeadLetter else SaysRetry
  }

  /** What can be said of a state of the services. */
  datatype Fact =
    | StatusOf(job: JobId, status: Status) | BucketOf(job: JobId, bucket: Bucket)
    | Present(key: Key) | Absent(key: Key)
    | NoneInTheWay(hash: string, developer: Developer)
    | RowsOf(job: JobId, file: FileId, row: FileRow)

  ghost predicate Holds(s: State, fact: Fact) {
    match fact
    case StatusOf(j, st) => j in s.jobs && s.jobs[j].status == st
    case BucketOf(j, b) => j in s.jobs && s.jobs[j].file in s.files && s.files[s.jobs[j].file].bucket == b
    case Present(key) => key in s.uploads
    case Absent(key) => key !in s.uploads
    case NoneInTheWay(hash, developer) =>
      || (forall j | j in s.jobs && s.jobs[j].file in s.files ::
            s.files[s.jobs[j].file].uploadId != hash || s.files[s.jobs[j].file].developer != developer)
      || (exists j | j in s.jobs && s.jobs[j].file in s.files ::
            && s.files[s.jobs[j].file].uploadId == hash && s.files[s.jobs[j].file].developer == developer
            && s.jobs[j].status in {Infected, Quarantined, Failed, QueuedForRetry})
    case RowsOf(j, f, row) => j in s.jobs && s.jobs[j] == JobRow(f, Pending) && f in s.files && s.files[f] == row
  }

  lemma StatusesThatDoNotBlock(st: Status)
    ensures Blocks(st) <==> st !in {Infected, Quarantined, Failed, QueuedForRetry}
  {
    match st { case _ => }
  }

  lemma NothingIsInTheWay(s: State, hash: string, developer: Developer)
    ensures EarlierJobs(s.jobs, s.files, hash, developer) == {} ==> Holds(s, NoneInTheWay(hash, developer))
    ensures forall j | j in EarlierJobs(s.jobs, s.files, hash, developer) && !Blocks(s.jobs[j].status) :: Holds(s, NoneInTheWay(hash, developer))
  {
    var earlier := EarlierJobs(s.jobs, s.files, hash, developer);
    assert forall j | j in s.jobs && s.jobs[j].file in s.files && s.files[s.jobs[j].file].uploadId == hash && s.files[s.jobs[j].file].developer == developer :: j in earlier;
    forall j | j in earlier && !Blocks(s.jobs[j].status) ensures Holds(s, NoneInTheWay(hash, developer)) {
      StatusesThatDoNotBlock(s.jobs[j].status);
    }
  }

  ghost predicate Had(states: seq<State>, from: nat, fact: Fact) {
    exists n: nat {:trigger states[n]} :: from <= n < |states| && Holds(states[n], fact)
  }

  ghost predicate Took(log: seq<Event>, from: nat, e: Event) {
    exists n: nat {:trigger log[n]} :: from <= n < |log| && log[n] == e
  }

  ghost predicate Excused(states: seq<State>, log: seq<Event>, from: nat, d: Delivery, task: Task) {
    exists n: nat {:trigger log[n]} :: from <= n < |log| && n < |states| && Excuse(states[n], log[n], d, task)
  }

  /** No file row names the key, or two do. */
  ghost predicate Unclear(files: map<FileId, FileRow>, key: Key) {
    || (forall f | f in files :: files[f].location != key)
    || (exists f, g | f in files && g in files && f != g :: files[f].location == key && files[g].location == key)
  }

  lemma NotOneIsUnclear(files: map<FileId, FileRow>, key: Key)
    requires |Matches(files, key)| != 1
    ensures Unclear(files, key)
  {
    var found := Matches(files, key);
    if f :| f in files && files[f].location == key {
      assert f in found && |found - {f}| == |found| - 1;
      var g :| g in found - {f};
    }
  }

  /** Why a scan raised: something it awaited did, or the store or the table were not as it needs
      them. */
  ghost predicate Excuse(s: State, e: Event, d: Delivery, task: Task) {
    && e.OfScan? && e.delivery == d
    && match e.scan
       case Throw(_) => true
       case Locate(_) => Unclear(s.files, task.key)
       case Spool => task.key !in s.uploads
       case Copy => task.key !in s.uploads
       case Head => task.key !in s.quarantine
       case _ => false
  }

  /** The same for the image worker. */
  ghost predicate ImageExcuse(s: State, e: Event, d: Delivery, task: Task) {
    && e.OfImage? && e.delivery == d
    && match e.image
       case Break => true
       case Fetch => task.key !in s.uploads
       case _ => false
  }

  ghost predicate ImageExcused(states: seq<State>, log: seq<Event>, from: nat, d: Delivery, task: Task) {
    exists n: nat {:trigger log[n]} :: from <= n < |log| && n < |states| && ImageExcuse(states[n], log[n], d, task)
  }

  lemma SixNames(uploadId: string, size: string, format: string) returns (k: nat)
    requires size in {"128", "512", "1024"} && format in {"webp", "jpeg"}
    ensures k < |Names()| && Derivative(uploadId, k) == uploadId + "/" + size + "." + format
  {
    k := (if size == "128" then 0 else if size == "512" then 2 else 4) + if format == "webp" then 0 else 1;
    assert Names()[k] == size + "." + format;
    assert uploadId + "/" + (size + "." + format) == uploadId + "/" + size + "." + format;
  }

  lemma RowsAre(s: State, j: JobId, f: FileId)
    requires j in s.jobs && s.jobs[j] == JobRow(f, Pending) && f in s.files
    ensures Holds(s, RowsOf(j, f, s.files[f]))
  {
  }

  lemma OnlyMember(found: set<FileId>, f: FileId)
    requires |found| == 1 && f in found
    ensures found == {f}
  {
    assert |found - {f}| == 0;
  }

  /** What a finished run of the scanner has brought about, for good. */
  ghost predicate AchievedIn(s: State, outcome: Outcome, d: Delivery, task: Task) {
    match outcome
    case InQuarantine => task.key in s.quarantine && Notice(JobQuarantined, task.job, d) in s.notices
    case SentToImages => task.job in s.cleared && exists i :: 0 <= i < |s.imageQueue| && s.imageQueue[i].body == ImageTask(task, d)
    case Done => task.job in s.cleared && Notice(JobCompleted, task.job, d) in s.notices
    case _ => true
  }

  /** How an `await` of the image worker ends: it also swallows some exceptions. */
  datatype ImageFate = Goes | Raises | Swallows | Dies

  predicate InImageBody(pc: ImagePc) {
    !(pc.Finishing? || pc.Mismatch? || pc.Broken? || pc.Told?)
  }

  lemma Breaking(s: State, d: Delivery)
    requires d in s.images && InImageBody(s.images[d].pc)
    ensures Step(s, OfImage(d, Break)) == AtImage(s, d, s.images[d].(pc := Broken))
  {
  }

  lemma Swallowing(s: State, d: Delivery)
    requires d in s.images && InImageBody(s.images[d].pc)
    ensures Step(s, OfImage(d, Swallow)) == s.(images := s.images - {d}, imageQueue := Ack(s.imageQueue, d.msg, d.tag))
  {
  }

  lemma InRead(s: State, d: Delivery, a: ScanAction)
    requires d in s.scans && InTransaction(s.scans[d].pc) && (a.LoadJob? || a.MarkScanning? || a.Locate?)
    ensures Step(s, OfScan(d, a)) == ReadStep(s, d, s.scans[d], a)
  {
    hide ReadStep;
  }

  lemma InJudge(s: State, d: Delivery, a: ScanAction)
    requires d in s.scans && InTransaction(s.scans[d].pc) && (a.Spool? || a.Judge? || a.Record?)
    ensures Step(s, OfScan(d, a)) == JudgeStep(s, d, s.scans[d], a)
  {
    hide JudgeStep;
  }

  lemma InQuarantining(s: State, d: Delivery, a: ScanAction)
    requires d in s.scans && InTransaction(s.scans[d].pc)
    requires a.Copy? || a.Head? || a.Delete? || a.Seal? || a.NoticeQuarantined?
    ensures Step(s, OfScan(d, a)) == QuarantineStep(s, d, s.scans[d], a)
  {
    hide QuarantineStep;
  }

  lemma InPass(s: State, d: Delivery, a: ScanAction)
    requires d in s.scans && InTransaction(s.scans[d].pc)
    requires a.Forward? || a.EndScan? || a.Complete? || a.NoticeCompleted? || a.Throw?
    ensures Step(s, OfScan(d, a)) == PassStep(s, d, s.scans[d], a)
  {
    hide PassStep;
  }

  lemma InHandle(s: State, d: Delivery, a: ScanAction)
    requires d in s.scans && !InTransaction(s.scans[d].pc) && (a.Rescue? || a.NoticeFailed? || a.Report?)
    ensures Step(s, OfScan(d, a)) == HandleStep(s, d, s.scans[d], a)
  {
    hide HandleStep;
  }

  lemma InSettle(s: State, d: Delivery, a: ScanAction)
    requires d in s.scans && !InTransaction(s.scans[d].pc) && (a.AckScan? || a.RejectTooLong? || a.GiveBack?)
    ensures Step(s, OfScan(d, a)) == SettleStep(s, d, s.scans[d], a)
  {
    hide SettleStep;
  }

  lemma Aborting(s: State, u: nat)
    requires u in s.requests
    ensures Step(s, OfRequest(u, AbortRequest)) == s.(requests := s.requests - {u})
  {
  }

  lemma Committing(s: State, u: nat, j: JobId, f: FileId)
    requires u in s.requests && s.requests[u].pc.Stored? && j !in s.jobs && f !in s.files
    ensures var r := s.requests[u];
      Step(s, OfRequest(u, CommitRows(j, f))) ==
      s.(files := s.files[f := FileRow(r.ext, r.hash, r.hash + r.ext, r.developer, Uploads)], jobs := s.jobs[j := JobRow(f, Pending)],
         requests := s.requests[u := r.(pc := Committed(j))])
  {
  }

  lemma OfBody(s: State, d: Delivery, a: ImageAction)
    requires d in s.images && InImageBody(s.images[d].pc) && !a.TakeImage? && !a.CrashImage?
    ensures Step(s, OfImage(d, a)) == ImageBody(s, d, s.images[d], a)
  {
    hide ImageBody;
  }

  lemma OfTail(s: State, d: Delivery, a: ImageAction)
    requires d in s.images && !InImageBody(s.images[d].pc) && !a.TakeImage? && !a.CrashImage?
    ensures Step(s, OfImage(d, a)) == ImageTail(s, d, s.images[d], a)
  {
    hide ImageTail;
  }

  datatype ImageEnd = Rendered | SentBack | GivenUp | Killed

  datatype Response = BadRequest | AlreadyThere(job: JobId) | Accepted(job: JobId) | ServerError

  class Cluster {
    var uploads: set<Key>
    var quarantine: set<Key>
    var processed: map<string, JobId>
    var files: map<FileId, FileRow>
    var jobs: map<JobId, JobRow>
    var scanQueue: Queue<Task>
    var imageQueue: Queue<ImageTask>
    var notices: seq<Notice>

    // Where each running handler is, and the verdicts given so far.
    var requests: map<nat, Request>
    var scans: map<Delivery, Scan>
    var images: map<Delivery, ImageRun>
    var cleared: set<JobId>

    // The run so far.
    ghost var states: seq<State>
    ghost var log: seq<Event>

    function Now(): State
      reads this
    {
      State(uploads, quarantine, processed, files, jobs, scanQueue, imageQueue, notices, requests, scans, images, cleared)
    }

    ghost predicate Valid()
      reads this
    {
      |states| == |log| + 1 && IsRun(states, log) && states[|log|] == Now()
    }

    constructor ()
      ensures Valid() && Now() == EMPTY && log == []
    {
      uploads, quarantine, processed, files, jobs := {}, {}, map[], map[], map[];
      scanQueue, imageQueue, notices := [], [], [];
      requests, scans, images, cleared := map[], map[], map[], {};
      states, log := [EMPTY], [];
    }

    /** Everything known of a state of a valid cluster. */
    lemma Knows()
      requires Valid()
      ensures Inv(Now())
    {
      RunKeeps(states, log, |log|);
    }

    /** The effect just made is the event `e`. */
    ghost method Did(e: Event)
      requires IsRun(states, log)
      requires Now() == Step(states[|log|], e)
      modifies `states, `log
      ensures Went() && log == old(log) + [e]
    {
      hide Step;
      states, log := states + [Now()], log + [e];
    }

    /** One event of somebody else. */
    method Perform(e: Event)
      requires Valid()
      modifies this
      ensures Went() && Now() == Step(old(Now()), e) && log == old(log) + [e]
    {
      hide Step, IsRun;
      var s := Step(Now(), e);
      SetServices(s);
      requests, scans, images, cleared := s.requests, s.scans, s.images, s.cleared;
      Did(e);
    }

    method SetServices(s: State)
      modifies `uploads, `quarantine, `processed, `files, `jobs, `scanQueue, `imageQueue, `notices
      ensures uploads == s.uploads && quarantine == s.quarantine && processed == s.processed && files == s.files
      ensures jobs == s.jobs && scanQueue == s.scanQueue && imageQueue == s.imageQueue && notices == s.notices
    {
      uploads, quarantine, processed, files := s.uploads, s.quarantine, s.processed, s.files;
      jobs, scanQueue, imageQueue, notices := s.jobs, s.scanQueue, s.imageQueue, s.notices;
    }

    /** Any number of events of other handlers, of the broker and of clients. */
    method Others(who: Actor)
      requires Valid()
      modifies this
      ensures Went() && SameRecord(old(Now()), Now(), who)
    {
      hide Step, IsRun;
      var k: nat := *;
      while k > 0
        invariant Went() && SameRecord(old(Now()), Now(), who)
      {
        var e: Event := *;
        if !ActsFor(e, who) {
          OthersAreLocal(Now(), e, who);
          Perform(e);
        }
        k := k - 1;
      }
    }

    /** The run has been extended. */
    twostate predicate Went()
      reads this
    {
      Valid() && old(log) <= log && old(states) <= states
    }

    /** The state before the last event, and that event. */
    ghost function Last(): State
      reads this
    {
      if 0 < |log| < |states| then states[|log| - 1] else Now()
    }

    ghost predicate Ended(e: Event)
      reads this
    {
      log != [] && log[|log| - 1] == e
    }

    /** At some moment since the log had `from` entries. */
    ghost predicate Meanwhile(from: nat, fact: Fact)
      reads this
    {
      Had(states, from, fact)
    }

    /** Since then this event has happened. */
    ghost predicate Happened(from: nat, e: Event)
      reads this
    {
      Took(log, from, e)
    }

    lemma NowIs(from: nat, fact: Fact)
      requires Valid() && from <= |log| && Holds(Now(), fact)
      ensures Meanwhile(from, fact)
    {
      hide Holds, IsRun;
      assert Holds(states[|log|], fact);
    }

    /** What has been since the log was `l` has been since it had `from` entries; and what had
        been when the log was `l` has been. */
    lemma Remember(s: seq<State>, l: seq<Event>, from: nat)
      requires s <= states && l <= log && from <= |l|
      ensures forall fact :: Had(s, from, fact) || Had(states, |l|, fact) ==> Meanwhile(from, fact)
      ensures forall e :: Took(l, from, e) || Took(log, |l|, e) ==> Happened(from, e)
    {
      hide Holds;
      forall fact | Had(s, from, fact) ensures Meanwhile(from, fact) {
        var n: nat :| from <= n < |s| && Holds(s[n], fact);
        assert Holds(states[n], fact);
      }
      forall e | Took(l, from, e) ensures Happened(from, e) {
        var n: nat :| from <= n < |l| && l[n] == e;
        assert log[n] == e;
      }
    }

    /** What was true for good at an earlier moment of the run still is. */
    lemma GrewSince(n: nat)
      requires Valid() && n <= |log|
      ensures Grows(states[n], Now())
    {
      RunGrows(states, log, n, |log|);
    }

    /***** security_scanner/worker.py *****/

    ghost predicate Here(d: Delivery, x: Scan)
      reads this
    {
      Valid() && d in scans && scans[d] == x
    }

    ghost predicate Gone(d: Delivery, task: Task, fate: Fate)
      reads this
    {
      && Valid()
      && (fate.RaisedHere? ==>
            && d in scans && scans[d].task == task && scans[d].pc.Raised?
            && log != [] && Excuse(Last(), log[|log| - 1], d, task)
            && (scans[d].pc.failure != Other ==> scans[d].seen == Scanning && Ended(OfScan(d, Throw(scans[d].pc.failure)))))
      && (fate.Died? ==> d !in scans && Ended(OfScan(d, CrashScan)))
    }

    /** `await` inside the transaction. */
    method Await(d: Delivery, ghost x: Scan) returns (fate: Fate)
      requires Here(d, x) && InTransaction(x.pc)
      modifies this
      ensures Went() && Gone(d, x.task, fate)
      ensures fate.Returned? ==> Here(d, x)
    {
      hide IsRun;
      Others(Scanner(d));
      fate := *;
      if fate.RaisedHere? {
        Throwing(Now(), d, Other);
        hide Step;
        Perform(OfScan(d, Throw(Other)));
      } else if fate.Died? {
        Perform(OfScan(d, CrashScan));
      }
    }

    method TakeScan(d: Delivery) returns (task: Task)
      requires Valid() && Waiting(scanQueue, d.msg) && d.tag == scanQueue[d.msg].deliveries + 1 && d !in scans
      modifies this
      ensures Went() && task == old(scanQueue[d.msg].body) && Here(d, Scan(task, 0, Uploads, Pending, Received))
    {
      hide IsRun;
      task := scanQueue[d.msg].body;
      scanQueue := Deliver(scanQueue, d.msg);
      scans := scans[d := Scan(task, 0, Uploads, Pending, Received)];
      Did(OfScan(d, ScanAction.TakeScan));
    }

    /** The last event has given job `j` this status, and left all other rows alone. */
    ghost predicate Writes(j: JobId, st: Status)
      reads this
    {
      j in Last().jobs && jobs == Last().jobs[j := JobRow(Last().jobs[j].file, st)]
    }

    /** It has put file `f` into bucket `b`; a session that saw it there does not write. */
    ghost predicate Shelves(f: FileId, seen: Bucket, b: Bucket)
      reads this
    {
      && f in Last().files
      && files == if seen == b then Last().files else Last().files[f := Last().files[f].(bucket := b)]
    }

    lemma JobIsThere(d: Delivery)
      requires Valid() && d in scans
      ensures scans[d].task.job in jobs
    {
      hide IsRun;
      Knows();
      ScanOf(Now(), d);
    }

    /** Lines 85-91: `select(Job)`.  The job is there: the branch for a missing job is dead. */
    method LoadJob(d: Delivery, task: Task) returns (fate: Fate, seen: Status)
      requires Here(d, Scan(task, 0, Uploads, Pending, Received))
      modifies this
      ensures Went() && Gone(d, task, fate)
      ensures fate.Returned? ==> Here(d, Scan(task, 0, Uploads, seen, Loaded)) && Holds(Now(), StatusOf(task.job, seen))
    {
      hide IsRun, Step;
      seen := Pending;
      fate := Await(d, Scan(task, 0, Uploads, Pending, Received));
      if !fate.Returned? { return; }
      JobIsThere(d);
      seen := jobs[task.job].status;
      scans := scans[d := Scan(task, 0, Uploads, seen, Loaded)];
      InRead(states[|log|], d, ScanAction.LoadJob);
      Did(OfScan(d, ScanAction.LoadJob));
    }

    /** Lines 92-93 */
    method MarkScanning(d: Delivery, task: Task, seen: Status) returns (fate: Fate)
      requires Here(d, Scan(task, 0, Uploads, seen, Loaded))
      modifies this
      ensures Went() && Gone(d, task, fate)
      ensures fate.Returned? ==> Here(d, Scan(task, 0, Uploads, Scanning, Marked))
      ensures fate.Returned? && seen != Scanning ==> Writes(task.job, Scanning)
    {
      hide IsRun, Step;
      fate := Await(d, Scan(task, 0, Uploads, seen, Loaded));
      if !fate.Returned? { return; }
      JobIsThere(d);
      jobs := SetStatus(jobs, task.job, seen, Scanning);
      scans := scans[d := Scan(task, 0, Uploads, Scanning, Marked)];
      InRead(states[|log|], d, ScanAction.MarkScanning);
      Did(OfScan(d, ScanAction.MarkScanning));
    }

    /** Lines 94-101: the file row with this storage location, if it is the only one. */
    method FindFile(d: Delivery, task: Task) returns (fate: Fate, file: FileId, bucket: Bucket)
      requires Here(d, Scan(task, 0, Uploads, Scanning, Marked))
      modifies this
      ensures Went() && Gone(d, task, fate)
      ensures fate.Returned? ==> Here(d, Scan(task, file, bucket, Scanning, Located))
      ensures fate.Returned? ==> Matches(files, task.key) == {file} && file in files && bucket == files[file].bucket
    {
      hide IsRun, Step;
      file, bucket := 0, Uploads;
      fate := Await(d, Scan(task, 0, Uploads, Scanning, Marked));
      if !fate.Returned? { return; }
      var found := Matches(files, task.key);
      if |found| == 1 {
        file :| file in found;
        OnlyMember(found, file);
        bucket := files[file].bucket;
        scans := scans[d := Scan(task, file, bucket, Scanning, Located)];
      } else {
        NotOneIsUnclear(files, task.key);
        fate := RaisedHere;
        scans := scans[d := Scan(task, 0, Uploads, Scanning, Raised(Other))];
      }
      InRead(states[|log|], d, Locate(file));
      Did(OfScan(d, Locate(file)));
    }

    /** Lines 111-113: `get_file_stream` reads the uploads bucket. */
    method ReadObject(d: Delivery, task: Task, file: FileId, bucket: Bucket) returns (fate: Fate)
      requires Here(d, Scan(task, file, bucket, Scanning, Located))
      modifies this
      ensures Went() && Gone(d, task, fate)
      ensures fate.Returned? ==> Here(d, Scan(task, file, bucket, Scanning, Spooled)) && task.key in uploads
    {
      hide IsRun, Step;
      fate := Await(d, Scan(task, file, bucket, Scanning, Located));
      if !fate.Returned? { return; }
      if task.key in uploads {
        scans := scans[d := Scan(task, file, bucket, Scanning, Spooled)];
      } else {
        fate := RaisedHere;
        scans := scans[d := Scan(task, file, bucket, Scanning, Raised(Other))];
      }
      InJudge(states[|log|], d, Spool);
      Did(OfScan(d, Spool));
    }

    /** Lines 115-116: clamd answers, or drops the connection, or refuses the file. */
    method AskClamd(d: Delivery, task: Task, file: FileId, bucket: Bucket) returns (fate: Fate, verdict: Verdict)
      requires Here(d, Scan(task, file, bucket, Scanning, Spooled))
      modifies this
      ensures Went() && Gone(d, task, fate)
      ensures fate.Returned? ==> Here(d, Scan(task, file, bucket, Scanning, Judged(verdict))) && Ended(OfScan(d, Judge(verdict)))
    {
      hide IsRun, Step, JudgeStep, PassStep;
      verdict := *;
      fate := Await(d, Scan(task, file, bucket, Scanning, Spooled));
      if !fate.Returned? { return; }
      var answered: bool := *;
      if answered {
        Answering(Now(), d, verdict);
        cleared := if verdict.Ok? then cleared + {task.job} else cleared;
        scans := scans[d := Scan(task, file, bucket, Scanning, Judged(verdict))];
        Did(OfScan(d, Judge(verdict)));
      } else {
        var problem: Failure := *;
        Throwing(Now(), d, problem);
        fate := RaisedHere;
        scans := scans[d := Scan(task, file, bucket, Scanning, Raised(problem))];
        Did(OfScan(d, Throw(problem)));
      }
    }

    function FinalStatus(verdict: Verdict): Status {
      if verdict.Ok? then Clean else Infected
    }

    /** Lines 127-129 */
    method CommitVerdict(d: Delivery, task: Task, file: FileId, bucket: Bucket, verdict: Verdict) returns (fate: Fate)
      requires Here(d, Scan(task, file, bucket, Scanning, Judged(verdict)))
      modifies this
      ensures Went() && Gone(d, task, fate)
      ensures fate.Returned? ==> Here(d, Scan(task, file, bucket, FinalStatus(verdict), Recorded(verdict)))
      ensures fate.Returned? ==> Writes(task.job, if verdict == Ok then Clean else Infected)
    {
      hide IsRun, Step;
      fate := Await(d, Scan(task, file, bucket, Scanning, Judged(verdict)));
      if !fate.Returned? { return; }
      JobIsThere(d);
      jobs := SetStatus(jobs, task.job, Scanning, FinalStatus(verdict));
      scans := scans[d := Scan(task, file, bucket, FinalStatus(verdict), Recorded(verdict))];
      InJudge(states[|log|], d, ScanAction.Record);
      Did(OfScan(d, ScanAction.Record));
    }

    /** shared/storage.py, lines 104-108 */
    method CopyObject(d: Delivery, task: Task, file: FileId, bucket: Bucket) returns (fate: Fate)
      requires Here(d, Scan(task, file, bucket, Infected, Recorded(Found)))
      modifies this
      ensures Went() && Gone(d, task, fate)
      ensures fate.Returned? ==> Here(d, Scan(task, file, bucket, Infected, Copied)) && task.key in uploads && task.key in quarantine
    {
      hide IsRun, Step;
      fate := Await(d, Scan(task, file, bucket, Infected, Recorded(Found)));
      if !fate.Returned? { return; }
      if task.key in uploads {
        quarantine := quarantine + {task.key};
        scans := scans[d := Scan(task, file, bucket, Infected, Copied)];
      } else {
        fate := RaisedHere;
        scans := scans[d := Scan(task, file, bucket, Infected, Raised(Other))];
      }
      InQuarantining(states[|log|], d, Copy);
      Did(OfScan(d, Copy));
    }

    /** Line 109 */
    method HeadObject(d: Delivery, task: Task, file: FileId, bucket: Bucket) returns (fate: Fate)
      requires Here(d, Scan(task, file, bucket, Infected, Copied))
      modifies this
      ensures Went() && Gone(d, task, fate)
      ensures fate.Returned? ==> Here(d, Scan(task, file, bucket, Infected, Verified))
    {
      hide IsRun, Step;
      fate := Await(d, Scan(task, file, bucket, Infected, Copied));
      if !fate.Returned? { return; }
      if task.key in quarantine {
        scans := scans[d := Scan(task, file, bucket, Infected, Verified)];
      } else {
        fate := RaisedHere;
        scans := scans[d := Scan(task, file, bucket, Infected, Raised(Other))];
      }
      InQuarantining(states[|log|], d, Head);
      Did(OfScan(d, Head));
    }

    /** Line 111 */
    method DeleteObject(d: Delivery, task: Task, file: FileId, bucket: Bucket) returns (fate: Fate)
      requires Here(d, Scan(task, file, bucket, Infected, Verified))
      modifies this
      ensures Went() && Gone(d, task, fate)
      ensures fate.Returned? ==> Here(d, Scan(task, file, bucket, Infected, Deleted)) && uploads == Last().uploads - {task.key}
    {
      hide IsRun, Step;
      fate := Await(d, Scan(task, file, bucket, Infected, Verified));
      if !fate.Returned? { return; }
      uploads := uploads - {task.key};
      scans := scans[d := Scan(task, file, bucket, Infected, Deleted)];
      InQuarantining(states[|log|], d, Delete);
      Did(OfScan(d, Delete));
    }

    /** `move_to_quarantine`: at no moment is the object in neither bucket. */
    method MoveToQuarantine(d: Delivery, task: Task, file: FileId, bucket: Bucket) returns (fate: Fate)
      requires Here(d, Scan(task, file, bucket, Infected, Recorded(Found)))
      modifies this
      ensures Went() && Gone(d, task, fate)
      ensures fate.Returned? ==> Here(d, Scan(task, file, bucket, Infected, Deleted)) && task.key !in uploads
      ensures forall n :: |old(log)| <= n <= |log| ==> Kept(states[n], task.key)
    {
      hide IsRun;
      TaskIsKept(d);
      fate := CopyObject(d, task, file, bucket);
      if fate.Returned? {
        fate := HeadObject(d, task, file, bucket);
      }
      if fate.Returned? {
        fate := DeleteObject(d, task, file, bucket);
      }
      forall n | |old(log)| <= n <= |log| ensures Kept(states[n], task.key) {
        RunGrows(states, log, |old(log)|, n);
      }
    }

    lemma TaskIsKept(d: Delivery)
      requires Valid() && d in scans
      ensures Kept(Now(), scans[d].task.key)
    {
      hide IsRun;
      Knows();
      ScanOf(Now(), d);
      FileOf(Now(), jobs[scans[d].task.job].file);
    }

    /** Lines 133-135 */
    method CommitQuarantine(d: Delivery, task: Task, file: FileId, bucket: Bucket) returns (fate: Fate)
      requires Here(d, Scan(task, file, bucket, Infected, Deleted))
      modifies this
      ensures Went() && Gone(d, task, fate)
      ensures fate.Returned? ==> Here(d, Scan(task, file, Quarantine, Quarantined, Sealed))
      ensures fate.Returned? ==> Writes(task.job, Quarantined) && Shelves(file, bucket, Quarantine)
    {
      hide IsRun, Step, SetStatus, SetBucket;
      fate := Await(d, Scan(task, file, bucket, Infected, Deleted));
      if !fate.Returned? { return; }
      JobIsThere(d);
      FileIsThere(d);
      SettingIs(jobs, task.job, Infected, Quarantined);
      ShelvingIs(files, file, bucket, Quarantine);
      Sealing(Now(), d);
      files := SetBucket(files, file, bucket, Quarantine);
      jobs := SetStatus(jobs, task.job, Infected, Quarantined);
      scans := scans[d := Scan(task, file, Quarantine, Quarantined, Sealed)];
      Did(OfScan(d, Seal));
    }

    /** Lines 136-143 */
    method AnnounceQuarantine(d: Delivery, task: Task, file: FileId) returns (fate: Fate)
      requires Here(d, Scan(task, file, Quarantine, Quarantined, Sealed))
      modifies this
      ensures Went() && Gone(d, task, fate)
      ensures fate.Returned? ==> Here(d, Scan(task, file, Quarantine, Quarantined, Ending))
      ensures fate.Returned? ==> Notice(JobQuarantined, task.job, d) in notices
    {
      hide IsRun, Step;
      fate := Await(d, Scan(task, file, Quarantine, Quarantined, Sealed));
      if !fate.Returned? { return; }
      notices := notices + [Notice(JobQuarantined, task.job, d)];
      scans := scans[d := Scan(task, file, Quarantine, Quarantined, Ending)];
      InQuarantining(states[|log|], d, NoticeQuarantined);
      Did(OfScan(d, NoticeQuarantined));
    }

    /** Waiting does not change the type of a file. */
    method AwaitRow(d: Delivery, task: Task, file: FileId, bucket: Bucket) returns (fate: Fate)
      requires Here(d, Scan(task, file, bucket, Clean, Recorded(Ok))) && file in files
      modifies this
      ensures Went() && Gone(d, task, fate)
      ensures fate.Returned? ==> Here(d, Scan(task, file, bucket, Clean, Recorded(Ok)))
      ensures file in files && files[file].ext == old(files[file].ext)
    {
      hide IsRun;
      fate := Await(d, Scan(task, file, bucket, Clean, Recorded(Ok)));
      GrewSince(|old(log)|);
    }

    /** Line 150 */
    method PublishImage(d: Delivery, task: Task, file: FileId, bucket: Bucket) returns (fate: Fate, ghost i: nat)
      requires Here(d, Scan(task, file, bucket, Clean, Recorded(Ok))) && file in files && KindOf(files[file].ext).Image?
      modifies this
      ensures Went() && Gone(d, task, fate)
      ensures fate.Returned? ==> Here(d, Scan(task, file, bucket, Clean, Forwarded))
      ensures fate.Returned? ==> i < |imageQueue| && imageQueue[i].body == ImageTask(task, d)
    {
      hide IsRun, Step, KindOf;
      i := 0;
      fate := AwaitRow(d, task, file, bucket);
      if !fate.Returned? { return; }
      Forwarding(Now(), d);
      i := |imageQueue|;
      imageQueue := Publish(imageQueue, ImageTask(task, d));
      scans := scans[d := Scan(task, file, bucket, Clean, Forwarded)];
      Did(OfScan(d, Forward));
    }

    /** Lines 151-159 */
    method LeaveForwarded(d: Delivery, task: Task, file: FileId, bucket: Bucket, ghost i: nat) returns (fate: Fate)
      requires Here(d, Scan(task, file, bucket, Clean, Forwarded))
      requires i < |imageQueue| && imageQueue[i].body == ImageTask(task, d)
      modifies this
      ensures Went() && Gone(d, task, fate)
      ensures fate.Returned? ==> Here(d, Scan(task, file, bucket, Clean, Ending))
      ensures fate.Returned? ==> i < |imageQueue| && imageQueue[i].body == ImageTask(task, d)
    {
      hide IsRun, Step;
      fate := Await(d, Scan(task, file, bucket, Clean, Forwarded));
      GrewSince(|old(log)|);
      if !fate.Returned? { return; }
      scans := scans[d := Scan(task, file, bucket, Clean, Ending)];
      InPass(states[|log|], d, EndScan);
      Did(OfScan(d, EndScan));
    }

    /** Lines 161-162 */
    method CommitCompleted(d: Delivery, task: Task, file: FileId, bucket: Bucket) returns (fate: Fate)
      requires Here(d, Scan(task, file, bucket, Clean, Recorded(Ok))) && file in files && !KindOf(files[file].ext).Image?
      modifies this
      ensures Went() && Gone(d, task, fate)
      ensures fate.Returned? ==> Here(d, Scan(task, file, bucket, Completed, Finished)) && Writes(task.job, Completed)
    {
      hide IsRun, Step;
      fate := AwaitRow(d, task, file, bucket);
      if !fate.Returned? { return; }
      JobIsThere(d);
      jobs := SetStatus(jobs, task.job, Clean, Completed);
      scans := scans[d := Scan(task, file, bucket, Completed, Finished)];
      InPass(states[|log|], d, Complete);
      Did(OfScan(d, Complete));
    }

    /** Lines 163-170 */
    method AnnounceCompletion(d: Delivery, task: Task, file: FileId, bucket: Bucket) returns (fate: Fate)
      requires Here(d, Scan(task, file, bucket, Completed, Finished))
      modifies this
      ensures Went() && Gone(d, task, fate)
      ensures fate.Returned? ==> Here(d, Scan(task, file, bucket, Completed, Ending))
      ensures fate.Returned? ==> Notice(JobCompleted, task.job, d) in notices
    {
      hide IsRun, Step;
      fate := Await(d, Scan(task, file, bucket, Completed, Finished));
      if !fate.Returned? { return; }
      notices := notices + [Notice(JobCompleted, task.job, d)];
      scans := scans[d := Scan(task, file, bucket, Completed, Ending)];
      InPass(states[|log|], d, NoticeCompleted);
      Did(OfScan(d, NoticeCompleted));
    }

    ghost predicate Achieved(outcome: Outcome, d: Delivery, task: Task)
      reads this
    {
      AchievedIn(Now(), outcome, d, task)
    }

    lemma AchievementsFollow(d: Delivery)
      requires Valid() && d in scans
      ensures var task := scans[d].task;
        && (Notice(JobQuarantined, task.job, d) in notices ==> task.key in quarantine)
        && (Notice(JobCompleted, task.job, d) in notices ==> task.job in cleared)
        && ((exists i :: 0 <= i < |imageQueue| && imageQueue[i].body == ImageTask(task, d)) ==> task.job in cleared)
    {
      hide IsRun;
      Knows();
      ScanOf(Now(), d);
      var task := scans[d].task;
      if i :| 0 <= i < |imageQueue| && imageQueue[i].body == ImageTask(task, d) {
        assert ImageTaskOk(Now(), imageQueue[i].body);
      }
      if i :| 0 <= i < |notices| && notices[i] == Notice(JobQuarantined, task.job, d) {
        assert NoticeOk(Now(), notices[i]);
      }
      if i :| 0 <= i < |notices| && notices[i] == Notice(JobCompleted, task.job, d) {
        assert NoticeOk(Now(), notices[i]);
      }
    }

    /** Since then the object was read, clamd answered, and the job was scanning and then what
        the answer says. */
    ghost predicate Examined(from: nat, d: Delivery, task: Task, verdict: Verdict)
      reads this
    {
      && Meanwhile(from, Present(task.key)) && Happened(from, OfScan(d, Judge(verdict)))
      && Meanwhile(from, StatusOf(task.job, Scanning)) && Meanwhile(from, StatusOf(task.job, if verdict == Ok then Clean else Infected))
    }

    /** Since then the object was taken out of the uploads bucket, and both rows said so. */
    ghost predicate PutAway(from: nat, task: Task)
      reads this
    {
      && Meanwhile(from, Absent(task.key))
      && Meanwhile(from, StatusOf(task.job, Quarantined)) && Meanwhile(from, BucketOf(task.job, Quarantine))
    }

    /** The file of a scan is that of its job. */
    lemma FileIsTheJobs(d: Delivery)
      requires Valid() && d in scans && HasFile(scans[d].pc)
      ensures var j := scans[d].task.job; j in jobs && jobs[j].file == scans[d].file && scans[d].file in files
    {
      hide IsRun;
      Knows();
      ScanOf(Now(), d);
    }

    /** Lines 131-144 */
    method InfectedBranch(d: Delivery, task: Task, file: FileId, bucket: Bucket) returns (fate: Fate)
      requires Here(d, Scan(task, file, bucket, Infected, Recorded(Found)))
      modifies this
      ensures Went() && Gone(d, task, fate)
      ensures fate.Returned? ==> Here(d, Scan(task, file, Quarantine, Quarantined, Ending)) && Achieved(InQuarantine, d, task)
      ensures fate.Returned? ==>
                && Meanwhile(|old(log)|, Absent(task.key)) && Meanwhile(|old(log)|, StatusOf(task.job, Quarantined))
                && (bucket != Quarantine ==> Meanwhile(|old(log)|, BucketOf(task.job, Quarantine)))
    {
      hide IsRun, Had, Holds, Writes, Shelves;
      fate := MoveToQuarantine(d, task, file, bucket);
      if !fate.Returned? { return; }
      AbsentNow(|old(log)|, task.key);
      ghost var s, l := states, log;
      fate := CommitQuarantine(d, task, file, bucket);
      if !fate.Returned? { return; }
      FileIsTheJobs(d);
      WrittenIs(|old(log)|, task.job, Quarantined);
      if bucket != Quarantine { ShelvedIs(|old(log)|, task.job, Quarantine, bucket); }
      Remember(s, l, |old(log)|);
      s, l := states, log;
      fate := AnnounceQuarantine(d, task, file);
      Remember(s, l, |old(log)|);
      if fate.Returned? { AchievementsFollow(d); }
    }

    /** Lines 146-170 */
    method CleanBranch(d: Delivery, task: Task, file: FileId, bucket: Bucket) returns (fate: Fate, outcome: Outcome)
      requires Here(d, Scan(task, file, bucket, Clean, Recorded(Ok)))
      modifies this
      ensures Went() && Gone(d, task, fate)
      ensures fate.Returned? ==> d in scans && scans[d].task == task && scans[d].pc.Ending? && Achieved(outcome, d, task)
      ensures file in old(files) && outcome == if old(files[file].ext) in {".png", ".jpeg"} then SentToImages else Done
      ensures fate.Returned? && outcome == Done ==> Meanwhile(|old(log)|, StatusOf(task.job, Completed))
    {
      hide IsRun, Had;
      FileIsThere(d);
      if KindOf(files[file].ext).Image? {
        outcome := SentToImages;
        ghost var i;
        fate, i := PublishImage(d, task, file, bucket);
        if !fate.Returned? { return; }
        fate := LeaveForwarded(d, task, file, bucket, i);
      } else {
        outcome := Done;
        fate := CommitCompleted(d, task, file, bucket);
        if !fate.Returned? { return; }
        NowIs(|old(log)|, StatusOf(task.job, Completed));
        ghost var s, l := states, log;
        fate := AnnounceCompletion(d, task, file, bucket);
        Remember(s, l, |old(log)|);
      }
      if fate.Returned? { AchievementsFollow(d); }
    }

    lemma FileIsThere(d: Delivery)
      requires Valid() && d in scans && HasFile(scans[d].pc)
      ensures scans[d].file in files
    {
      hide IsRun;
      Knows();
      ScanOf(Now(), d);
    }

    /** Lines 85-101: the rows. */
    method OpenJob(d: Delivery, task: Task) returns (fate: Fate, file: FileId, bucket: Bucket)
      requires Here(d, Scan(task, 0, Uploads, Pending, Received))
      modifies this
      ensures Went() && Gone(d, task, fate)
      ensures fate.Returned? ==> Here(d, Scan(task, file, bucket, Scanning, Located))
      ensures fate.Returned? ==> Meanwhile(|old(log)|, StatusOf(task.job, Scanning)) && Meanwhile(|old(log)|, BucketOf(task.job, bucket))
    {
      hide IsRun, Had, Matches, Holds, Writes;
      var seen;
      file, bucket := 0, Uploads;
      fate, seen := LoadJob(d, task);
      if !fate.Returned? { return; }
      NowIs(|old(log)|, StatusOf(task.job, seen));
      ghost var s, l := states, log;
      fate := MarkScanning(d, task, seen);
      if !fate.Returned? { return; }
      if seen != Scanning { WrittenIs(|old(log)|, task.job, Scanning); }
      Remember(s, l, |old(log)|);
      s, l := states, log;
      fate, file, bucket := FindFile(d, task);
      if !fate.Returned? { return; }
      FoundIn(|old(log)|, d);
      Remember(s, l, |old(log)|);
    }

    lemma FoundIn(from: nat, d: Delivery)
      requires Valid() && from <= |log| && d in scans && HasFile(scans[d].pc)
      ensures scans[d].file in files ==> Meanwhile(from, BucketOf(scans[d].task.job, files[scans[d].file].bucket))
    {
      hide IsRun;
      FileIsTheJobs(d);
      NowIs(from, BucketOf(scans[d].task.job, files[scans[d].file].bucket));
    }

    /** Lines 111-129: up to the committed verdict. */
    method Judging(d: Delivery, task: Task, file: FileId, bucket: Bucket) returns (fate: Fate, verdict: Verdict)
      requires Here(d, Scan(task, file, bucket, Scanning, Located))
      modifies this
      ensures Went() && Gone(d, task, fate)
      ensures fate.Returned? ==> Here(d, Scan(task, file, bucket, FinalStatus(verdict), Recorded(verdict)))
      ensures fate.Returned? ==> Meanwhile(|old(log)|, Present(task.key)) && Happened(|old(log)|, OfScan(d, Judge(verdict)))
      ensures fate.Returned? ==> Meanwhile(|old(log)|, StatusOf(task.job, if verdict == Ok then Clean else Infected))
    {
      hide IsRun, Had;
      verdict := Found;
      fate := ReadObject(d, task, file, bucket);
      if !fate.Returned? { return; }
      NowIs(|old(log)|, Present(task.key));
      ghost var s, l := states, log;
      fate, verdict := AskClamd(d, task, file, bucket);
      if !fate.Returned? { return; }
      assert Happened(|old(log)|, OfScan(d, Judge(verdict)));
      Remember(s, l, |old(log)|);
      s, l := states, log;
      fate := CommitVerdict(d, task, file, bucket, verdict);
      if !fate.Returned? { return; }
      NowIs(|old(log)|, StatusOf(task.job, if verdict == Ok then Clean else Infected));
      Remember(s, l, |old(log)|);
    }

    /** What the outcome of a scan stands for: the answer of clamd, and what was in the tables and
        the bucket since the log had `from` entries. */
    ghost predicate Worked(from: nat, d: Delivery, task: Task, outcome: Outcome)
      reads this
    {
      match outcome
      case InQuarantine => Examined(from, d, task, Found) && PutAway(from, task)
      case SentToImages => Examined(from, d, task, Ok)
      case Done => Examined(from, d, task, Ok) && Meanwhile(from, StatusOf(task.job, Completed))
      case _ => true
    }

    /** The body of `async with job_transaction(job_id)`. */
    method Transaction(d: Delivery, task: Task) returns (fate: Fate, outcome: Outcome)
      requires Here(d, Scan(task, 0, Uploads, Pending, Received))
      modifies this
      ensures Went() && Gone(d, task, fate)
      ensures fate.Returned? ==> d in scans && scans[d].task == task && scans[d].pc.Ending? && Achieved(outcome, d, task)
      ensures fate.Returned? ==> outcome == InQuarantine || outcome == SentToImages || outcome == Done
      ensures fate.Returned? ==> Worked(|old(log)|, d, task, outcome)
    {
      hide IsRun, Achieved, Had, Took;
      outcome := InQuarantine;
      var file, bucket, verdict;
      fate, file, bucket := OpenJob(d, task);
      if !fate.Returned? { return; }
      ghost var s, l := states, log;
      fate, verdict := Judging(d, task, file, bucket);
      if !fate.Returned? { return; }
      Remember(s, l, |old(log)|);
      s, l := states, log;
      if verdict.Found? {
        fate := InfectedBranch(d, task, file, bucket);
      } else {
        fate, outcome := CleanBranch(d, task, file, bucket);
      }
      Remember(s, l, |old(log)|);
    }

    /** `await` outside the transaction: what is raised there leaves the handler, and nothing is
        raised if what is awaited `works`. */
    method AwaitLate(d: Delivery, ghost x: Scan, works: bool) returns (fate: Fate)
      requires Here(d, x) && !InTransaction(x.pc)
      modifies this
      ensures Went() && (works ==> !fate.RaisedHere?)
      ensures if fate.Died? then d !in scans && Ended(OfScan(d, CrashScan)) else Here(d, x)
    {
      hide IsRun;
      Others(Scanner(d));
      fate := *;
      if works && fate.RaisedHere? { fate := Returned; }
      if fate.Died? {
        Perform(OfScan(d, CrashScan));
      }
    }

    /** Leaving `message.process` with an exception: reject with requeue. */
    method GiveItBack(d: Delivery)
      requires Valid() && d in scans
      requires scans[d].pc.Failing? || scans[d].pc.Noticed? || scans[d].pc.Reported?
      modifies this
      ensures Went() && d !in scans && !Current(scanQueue, d.msg, d.tag)
      ensures Ended(OfScan(d, ScanAction.GiveBack)) && GoesBack(Last().scanQueue, scanQueue, d) && notices == old(notices)
    {
      hide IsRun, Step;
      scanQueue := Return(scanQueue, d.msg, d.tag);
      scans := scans - {d};
      InSettle(states[|log|], d, ScanAction.GiveBack);
      Did(OfScan(d, ScanAction.GiveBack));
    }

    /** The handlers of job_transaction: a status is written, unless that fails too. */
    method SaveFailure(d: Delivery, task: Task, works: bool) returns (fate: Fate, failure: Failure)
      requires Valid() && d in scans && scans[d].task == task && scans[d].pc.Raised?
      modifies this
      ensures Went() && (works ==> !fate.RaisedHere?)
      ensures if fate.Died? then d !in scans && Ended(OfScan(d, CrashScan)) else d in scans && scans[d].task == task && scans[d].pc == Failing(failure)
      ensures fate.RaisedHere? ==> failure == Other && jobs == Last().jobs
      ensures fate.Returned? ==>
                var st := if failure == ConnectionDropped then QueuedForRetry else Failed;
                && failure == old(scans[d].pc.failure) && scans[d].seen == st
                && (if old(scans[d].seen) == st then jobs == Last().jobs else Writes(task.job, st))
    {
      hide IsRun, Step, SetStatus;
      fate := AwaitLate(d, scans[d], works);
      failure := Other;
      if fate.Died? { return; }
      if fate.Returned? {
        failure := scans[d].pc.failure;
        WriteFailure(d, task);
      } else {
        Rescuing(Now(), d, false);
        scans := scans[d := scans[d].(pc := Failing(Other))];
        Did(OfScan(d, Rescue(false)));
      }
    }

    method WriteFailure(d: Delivery, task: Task)
      requires Valid() && d in scans && scans[d].task == task && scans[d].pc.Raised?
      modifies this
      ensures Went() && d in scans && scans[d].task == task
      ensures var failure := old(scans[d].pc.failure);
              var st := if failure == ConnectionDropped then QueuedForRetry else Failed;
              && scans[d].pc == Failing(failure) && scans[d].seen == st
              && (if old(scans[d].seen) == st then jobs == Last().jobs else Writes(task.job, st))
    {
      hide IsRun, Step, SetStatus;
      var x := scans[d];
      var st := if x.pc.failure.ConnectionDropped? then QueuedForRetry else Failed;
      JobIsThere(d);
      Rescuing(Now(), d, true);
      SettingIs(jobs, task.job, x.seen, st);
      jobs := SetStatus(jobs, task.job, x.seen, st);
      scans := scans[d := x.(seen := st, pc := Failing(x.pc.failure))];
      Did(OfScan(d, Rescue(true)));
    }

    /** Lines 172-203: the failure webhook of a last delivery. */
    method AnnounceFailure(d: Delivery, task: Task, works: bool) returns (fate: Fate)
      requires Valid() && d in scans && scans[d].task == task && scans[d].pc == Failing(Other) && LastDelivery(d)
      modifies this
      ensures Went() && (works ==> !fate.RaisedHere?)
      ensures match fate
              case Returned => d in scans && scans[d].task == task && scans[d].pc.Noticed? && Notice(JobFailed, task.job, d) in notices
              case RaisedHere => d in scans && scans[d].task == task && scans[d].pc == Failing(Other)
              case Died => d !in scans && Ended(OfScan(d, CrashScan))
    {
      hide IsRun, Step, LastDelivery;
      var x := scans[d];
      fate := AwaitLate(d, x, works);
      if !fate.Returned? { return; }
      Noticing(Now(), d);
      notices := notices + [Notice(JobFailed, task.job, d)];
      scans := scans[d := Scan(task, x.file, x.bucket, x.seen, Noticed)];
      Did(OfScan(d, ScanAction.NoticeFailed));
    }

    /** The audit entry about the failure. */
    method ReportFailure(d: Delivery, works: bool) returns (fate: Fate)
      requires Valid() && d in scans
      requires scans[d].pc.Noticed? || scans[d].pc == Failing(ConnectionDropped) || (scans[d].pc == Failing(Other) && !LastDelivery(d))
      modifies this
      ensures Went() && (works ==> !fate.RaisedHere?)
      ensures if fate.Died? then d !in scans && Ended(OfScan(d, CrashScan))
              else if fate.Returned? then d in scans && scans[d].pc == Reported(ReportFor(old(scans[d].pc))) && Ended(OfScan(d, ScanAction.Report))
              else d in scans && scans[d].pc == old(scans[d].pc)
    {
      hide IsRun, Step;
      fate := AwaitLate(d, scans[d], works);
      if !fate.Returned? { return; }
      var x := scans[d];
      scans := scans[d := x.(pc := Reported(if x.pc.Noticed? then SaysDeadLetter
                                            else if x.pc.failure.Other? then SaysRetry else SaysQueued))];
      InHandle(states[|log|], d, ScanAction.Report);
      Did(OfScan(d, ScanAction.Report));
    }

    /** `message.nack(requeue=False)` for a file clamd refuses to read. */
    method RejectIt(d: Delivery)
      requires Valid() && d in scans && scans[d].pc == Failing(TooLong)
      modifies this
      ensures Went() && d !in scans && !Current(scanQueue, d.msg, d.tag)
      ensures Ended(OfScan(d, RejectTooLong)) && Leaves(Last().scanQueue, scanQueue, d, Dead)
    {
      hide IsRun, Step;
      scanQueue := Discard(scanQueue, d.msg, d.tag);
      scans := scans - {d};
      InSettle(states[|log|], d, RejectTooLong);
      Did(OfScan(d, RejectTooLong));
    }

    /** Where the message of delivery `d` is when its run ends, if it held it until then. */
    ghost predicate SettledAs(outcome: Outcome, d: Delivery)
      reads this
    {
      match outcome
      case Crashed => Ended(OfScan(d, CrashScan))
      case GivenBack => Ended(OfScan(d, ScanAction.GiveBack)) && GoesBack(Last().scanQueue, scanQueue, d)
      case Rejected => Ended(OfScan(d, RejectTooLong)) && Leaves(Last().scanQueue, scanQueue, d, Dead)
      case _ => Ended(OfScan(d, AckScan)) && Leaves(Last().scanQueue, scanQueue, d, Acked)
    }

    /** `except BufferTooLongError`: a file that clamd refuses is rejected. */
    method RejectTooLongFile(d: Delivery, works: bool) returns (outcome: Outcome)
      requires Valid() && d in scans && scans[d].pc == Failing(TooLong)
      modifies this
      ensures Went() && d !in scans && (outcome == GivenBack || outcome == Rejected || outcome == Crashed)
      ensures outcome != Crashed ==> !Current(scanQueue, d.msg, d.tag)
      ensures SettledAs(outcome, d) && (works ==> outcome != GivenBack)
    {
      hide IsRun, Step;
      var fate := AwaitLate(d, scans[d], works);
      if fate.Died? { return Crashed; }
      if fate.Returned? {
        RejectIt(d);
        return Rejected;
      }
      GiveItBack(d);
      return GivenBack;
    }

    /** The other two except clauses: the report, and on a last delivery the webhook before it. */
    method ReportAndGiveBack(d: Delivery, task: Task, why: Failure, works: bool) returns (outcome: Outcome, ghost report: Option<Report>)
      requires Valid() && d in scans && scans[d].task == task && scans[d].pc == Failing(why) && why != TooLong
      modifies this
      ensures Went() && d !in scans && (outcome == GivenBack || outcome == Crashed)
      ensures outcome != Crashed ==> !Current(scanQueue, d.msg, d.tag)
      ensures SettledAs(outcome, d) && (works && outcome == GivenBack ==> report.Some?)
      ensures report.Some? ==> report.value == ReportAfter(why, d) && Happened(|old(log)|, OfScan(d, ScanAction.Report))
      ensures outcome == GivenBack && report == Some(SaysDeadLetter) ==> Notice(JobFailed, task.job, d) in notices
    {
      hide IsRun, Step, LastDelivery;
      report := None;
      var fate;
      if why.Other? && LastDelivery(d) {
        fate := AnnounceFailure(d, task, works);
        if fate.Died? { return Crashed, report; }
        if fate.RaisedHere? {
          GiveItBack(d);
          return GivenBack, report;
        }
      }
      ghost var n := |log|;
      fate := ReportFailure(d, works);
      if fate.Died? { return Crashed, report; }
      if fate.Returned? { report := Some(scans[d].pc.report); }
      GrewSince(n);
      GiveItBack(d);
      return GivenBack, report;
    }

    /** The three except clauses.  `failure` is the exception that reaches them: the original one,
        or another if saving the status failed.  A file that is too long is rejected, unless that
        fails as well; anything else is given back, after the report that goes with it. */
    method Fail(d: Delivery, task: Task, works: bool) returns (outcome: Outcome, ghost failure: Failure, ghost report: Option<Report>)
      requires Valid() && d in scans && scans[d].task == task && scans[d].pc.Raised?
      modifies this
      ensures Went() && d !in scans
      ensures outcome == GivenBack || outcome == Rejected || outcome == Crashed
      ensures outcome != Crashed ==> !Current(scanQueue, d.msg, d.tag)
      ensures SettledAs(outcome, d)
      ensures works && outcome != Crashed ==>
                && failure == old(scans[d].pc.failure)
                && (if failure == TooLong then outcome == Rejected else outcome == GivenBack && report.Some?)
      ensures failure == old(scans[d].pc.failure) || failure == Other
      ensures outcome == Rejected ==> failure == TooLong && report.None?
      ensures failure == ConnectionDropped && old(scans[d].seen) == Scanning ==> Meanwhile(|old(log)|, StatusOf(task.job, QueuedForRetry))
      ensures failure == TooLong && old(scans[d].seen) == Scanning ==> Meanwhile(|old(log)|, StatusOf(task.job, Failed))
      ensures report.Some? ==> Happened(|old(log)|, OfScan(d, ScanAction.Report))
      ensures report.Some? ==>
                && failure != TooLong
                && report.value == if failure == ConnectionDropped then SaysQueued else if d.tag >= 4 then SaysDeadLetter else SaysRetry
      ensures outcome == GivenBack && report == Some(SaysDeadLetter) ==> Notice(JobFailed, task.job, d) in notices
    {
      hide IsRun, Step, SettledAs, Had;
      report := None;
      var fate, why := SaveFailure(d, task, works);
      failure := if fate.Died? then Other else why;
      ghost var st := if failure == ConnectionDropped then QueuedForRetry else Failed;
      if fate.Returned? && old(scans[d].seen) == Scanning { NowIs(|old(log)|, StatusOf(task.job, st)); }
      ghost var s, l := states, log;
      if fate.Died? {
        outcome := Crashed;
        DiedSettled(d);
      } else if why.TooLong? {
        outcome := RejectTooLongFile(d, works);
      } else {
        outcome, report := ReportAndGiveBack(d, task, why, works);
      }
      Remember(s, l, |old(log)|);
    }

    lemma DiedSettled(d: Delivery)
      requires Ended(OfScan(d, CrashScan))
      ensures SettledAs(Crashed, d)
    {
    }

    /** Leaving `message.process` normally. */
    method AckIt(d: Delivery, ghost outcome: Outcome, ghost task: Task) returns (fate: Fate)
      requires Valid() && d in scans && scans[d].pc.Ending? && Achieved(outcome, d, task)
      modifies this
      ensures Went() && d !in scans && Achieved(outcome, d, task)
      ensures if fate.Died? then Ended(OfScan(d, CrashScan))
              else !Current(scanQueue, d.msg, d.tag) && Ended(OfScan(d, AckScan)) && Leaves(Last().scanQueue, scanQueue, d, Acked)
    {
      hide IsRun, Step;
      ghost var n := |log|;
      fate := AwaitLate(d, scans[d], false);
      if !fate.Died? {
        scanQueue := Ack(scanQueue, d.msg, d.tag);
        scans := scans - {d};
        InSettle(states[|log|], d, AckScan);
        Did(OfScan(d, AckScan));
      }
      GrewSince(n);
      StillAchieved(n, outcome, d, task);
    }

    lemma StillAchieved(n: nat, outcome: Outcome, d: Delivery, task: Task)
      requires Valid() && n <= |log| && Grows(states[n], Now())
      requires AchievedIn(states[n], outcome, d, task)
      ensures Achieved(outcome, d, task)
    {
      hide IsRun;
    }

    lemma NothingToAchieve(d: Delivery, task: Task)
      ensures Achieved(GivenBack, d, task) && Achieved(Rejected, d, task) && Achieved(Crashed, d, task)
    {
    }

    /** `scan_file`: one delivery of one scan task, whatever happens meanwhile.  A run that the
        process survives settles its message; a message is given back or rejected only after
        something has raised, and rejected only if clamd refused the file. */
    method ScanFile(d: Delivery, works: bool) returns (outcome: Outcome)
      requires Valid() && Waiting(scanQueue, d.msg) && d.tag == scanQueue[d.msg].deliveries + 1 && d !in scans
      modifies this
      ensures Went() && d !in scans
      ensures outcome != Crashed ==> !Current(scanQueue, d.msg, d.tag)
      ensures SettledAs(outcome, d)
      ensures Achieved(outcome, d, old(scanQueue[d.msg].body))
      ensures Worked(|old(log)|, d, old(scanQueue[d.msg].body), outcome)
      ensures outcome == GivenBack || outcome == Rejected ==> Excused(states, log, |old(log)|, d, old(scanQueue[d.msg].body))
      ensures works && outcome == GivenBack ==> Happened(|old(log)|, OfScan(d, ScanAction.Report))
      ensures outcome == Rejected ==>
                Happened(|old(log)|, OfScan(d, Throw(TooLong))) && Meanwhile(|old(log)|, StatusOf(old(scanQueue[d.msg].body.job), Failed))
    {
      hide IsRun, Achieved, SettledAs, Had, Took, Excused;
      var task := TakeScan(d);
      ghost var s, l := states, log;
      var fate;
      ghost var failure, report;
      fate, outcome := Transaction(d, task);
      Remember(s, l, |old(log)|);
      s, l := states, log;
      if fate.Returned? {
        fate := AckIt(d, outcome, task);
        AckedSettled(d, fate.Died?, outcome);
        if fate.Died? { outcome := Crashed; }
      } else if fate.RaisedHere? {
        IsExcused(d, task, |old(log)|);
        outcome, failure, report := Fail(d, task, works);
        StaysExcused(s, l, d, task, |old(log)|);
      } else {
        outcome := Crashed;
        DiedSettled(d);
      }
      Remember(s, l, |old(log)|);
      NothingToAchieve(d, task);
    }

    lemma AckedSettled(d: Delivery, died: bool, outcome: Outcome)
      requires if died then Ended(OfScan(d, CrashScan)) else Ended(OfScan(d, AckScan)) && Leaves(Last().scanQueue, scanQueue, d, Acked)
      ensures if died then SettledAs(Crashed, d) else outcome in {InQuarantine, SentToImages, Done} ==> SettledAs(outcome, d)
    {
    }

    lemma IsExcused(d: Delivery, task: Task, from: nat)
      requires Valid() && d in scans && Gone(d, task, RaisedHere) && from < |log|
      ensures Excused(states, log, from, d, task)
      ensures scans[d].pc.failure != Other ==> Happened(from, OfScan(d, Throw(scans[d].pc.failure)))
    {
      hide IsRun, Excuse;
      assert Excuse(states[|log| - 1], log[|log| - 1], d, task);
    }

    lemma StaysExcused(s: seq<State>, l: seq<Event>, d: Delivery, task: Task, from: nat)
      requires s <= states && l <= log && Excused(s, l, from, d, task)
      ensures Excused(states, log, from, d, task)
    {
      hide Excuse;
      var n: nat :| from <= n < |l| && n < |s| && Excuse(s[n], l[n], d, task);
      assert states[n] == s[n] && log[n] == l[n];
    }

    /***** image_processor/worker.py *****/

    ghost predicate ImageHere(d: Delivery, x: ImageRun)
      reads this
    {
      Valid() && d in images && images[d] == x
    }

    ghost predicate ImageGone(d: Delivery, task: Task, fate: ImageFate)
      reads this
    {
      && Valid()
      && (fate.Raises? ==> d in images && images[d].task == task && images[d].pc.Broken? && log != [] && ImageExcuse(Last(), log[|log| - 1], d, task))
      && (fate.Swallows? ==> d !in images && !Current(imageQueue, d.msg, d.tag) && Ended(OfImage(d, Swallow)) && Leaves(Last().imageQueue, imageQueue, d, Acked))
      && (fate.Dies? ==> d !in images && Ended(OfImage(d, CrashImage)))
    }

    method AwaitImage(d: Delivery, ghost x: ImageRun) returns (fate: ImageFate)
      requires ImageHere(d, x) && InImageBody(x.pc)
      modifies this
      ensures Went() && ImageGone(d, x.task, fate)
      ensures fate.Goes? ==> ImageHere(d, x)
    {
      hide IsRun;
      Others(Imager(d));
      fate := *;
      match fate
      case Goes =>
      case Raises =>
        Breaking(Now(), d);
        hide Step;
        Perform(OfImage(d, Break));
      case Swallows =>
        Swallowing(Now(), d);
        hide Step;
        Perform(OfImage(d, Swallow));
      case Dies =>
        Perform(OfImage(d, CrashImage));
    }

    method TakeImage(d: Delivery) returns (task: Task)
      requires Valid() && Waiting(imageQueue, d.msg) && d.tag == imageQueue[d.msg].deliveries + 1 && d !in images
      modifies this
      ensures Went() && task == old(imageQueue[d.msg].body.task)
      ensures ImageHere(d, ImageRun(task, 0, "", Uploads, Pending, Arrived))
    {
      hide IsRun;
      task := imageQueue[d.msg].body.task;
      imageQueue := Deliver(imageQueue, d.msg);
      images := images[d := ImageRun(task, 0, "", Uploads, Pending, Arrived)];
      Did(OfImage(d, ImageAction.TakeImage));
    }

    /** Lines 81-95: the job and its file; the three early returns are dead. */
    method OpenRows(d: Delivery, task: Task) returns (fate: ImageFate, file: FileId, bucket: Bucket, seen: Status)
      requires ImageHere(d, ImageRun(task, 0, "", Uploads, Pending, Arrived))
      modifies this
      ensures Went() && ImageGone(d, task, fate)
      ensures fate.Goes? ==> ImageHere(d, ImageRun(task, file, Stem(task.key), bucket, seen, Opened))
      ensures fate.Goes? ==> Holds(Now(), StatusOf(task.job, seen)) && Holds(Now(), BucketOf(task.job, bucket))
    {
      hide IsRun, Step;
      file, bucket, seen := 0, Uploads, Pending;
      fate := AwaitImage(d, ImageRun(task, 0, "", Uploads, Pending, Arrived));
      if !fate.Goes? { return; }
      RowsAreThere(d);
      file := jobs[task.job].file;
      bucket, seen := files[file].bucket, jobs[task.job].status;
      images := images[d := ImageRun(task, file, files[file].uploadId, bucket, seen, Opened)];
      OfBody(states[|log|], d, Open);
      Did(OfImage(d, Open));
    }

    lemma RowsAreThere(d: Delivery)
      requires Valid() && d in images
      ensures var j := images[d].task.job;
        j in jobs && jobs[j].file in files && files[jobs[j].file].uploadId == Stem(images[d].task.key)
      ensures !images[d].pc.Arrived? && InImageBody(images[d].pc) ==> images[d].file == jobs[images[d].task.job].file
    {
      hide IsRun;
      Knows();
      ImageOf(Now(), d);
    }

    /** Lines 97-98 */
    method MarkProcessing(d: Delivery, task: Task, file: FileId, bucket: Bucket, seen: Status) returns (fate: ImageFate)
      requires ImageHere(d, ImageRun(task, file, Stem(task.key), bucket, seen, Opened))
      modifies this
      ensures Went() && ImageGone(d, task, fate)
      ensures fate.Goes? ==> ImageHere(d, ImageRun(task, file, Stem(task.key), bucket, Processing, Working))
      ensures fate.Goes? && seen != Processing ==> Writes(task.job, Processing)
    {
      hide IsRun, Step;
      fate := AwaitImage(d, ImageRun(task, file, Stem(task.key), bucket, seen, Opened));
      if !fate.Goes? { return; }
      RowsAreThere(d);
      jobs := SetStatus(jobs, task.job, seen, Processing);
      images := images[d := ImageRun(task, file, Stem(task.key), bucket, Processing, Working)];
      OfBody(states[|log|], d, ImageAction.MarkProcessing);
      Did(OfImage(d, ImageAction.MarkProcessing));
    }

    /** Lines 102-106 */
    method FetchObject(d: Delivery, task: Task, file: FileId, bucket: Bucket) returns (fate: ImageFate)
      requires ImageHere(d, ImageRun(task, file, Stem(task.key), bucket, Processing, Working))
      modifies this
      ensures Went() && ImageGone(d, task, fate)
      ensures fate.Goes? ==> ImageHere(d, ImageRun(task, file, Stem(task.key), bucket, Processing, Fetched)) && task.key in uploads
    {
      hide IsRun, Step;
      fate := AwaitImage(d, ImageRun(task, file, Stem(task.key), bucket, Processing, Working));
      if !fate.Goes? { return; }
      if task.key in uploads {
        images := images[d := ImageRun(task, file, Stem(task.key), bucket, Processing, Fetched)];
      } else {
        fate := Raises;
        images := images[d := ImageRun(task, file, Stem(task.key), bucket, Processing, Broken)];
      }
      OfBody(states[|log|], d, Fetch);
      Did(OfImage(d, Fetch));
    }

    /** Lines 107-128: what Pillow makes of the bytes; it may raise. */
    method RenderImage(d: Delivery, task: Task, file: FileId, bucket: Bucket) returns (fate: ImageFate)
      requires ImageHere(d, ImageRun(task, file, Stem(task.key), bucket, Processing, Fetched))
      modifies this
      ensures Went() && ImageGone(d, task, fate)
      ensures fate.Goes? ==> ImageHere(d, ImageRun(task, file, Stem(task.key), bucket, Processing, Rendering(0)))
    {
      hide IsRun, Step;
      fate := AwaitImage(d, ImageRun(task, file, Stem(task.key), bucket, Processing, Fetched));
      if !fate.Goes? { return; }
      images := images[d := ImageRun(task, file, Stem(task.key), bucket, Processing, Rendering(0))];
      OfBody(states[|log|], d, ImageAction.Render);
      Did(OfImage(d, ImageAction.Render));
    }

    method StoreOne(d: Delivery, task: Task, file: FileId, bucket: Bucket, k: nat) returns (fate: ImageFate)
      requires ImageHere(d, ImageRun(task, file, Stem(task.key), bucket, Processing, Rendering(k))) && k < |Names()|
      modifies this
      ensures Went() && ImageGone(d, task, fate)
      ensures fate.Goes? ==> ImageHere(d, ImageRun(task, file, Stem(task.key), bucket, Processing, Rendering(k + 1)))
      ensures fate.Goes? ==> processed == Last().processed[Derivative(Stem(task.key), k) := task.job]
    {
      hide IsRun, Derivative, Step;
      fate := AwaitImage(d, ImageRun(task, file, Stem(task.key), bucket, Processing, Rendering(k)));
      if !fate.Goes? { return; }
      processed := processed[Derivative(Stem(task.key), k) := task.job];
      images := images[d := ImageRun(task, file, Stem(task.key), bucket, Processing, Rendering(k + 1))];
      OfBody(states[|log|], d, StoreDerivative);
      Did(OfImage(d, StoreDerivative));
    }

    /** Lines 130-138: the six uploads, one after the other. */
    method StoreAll(d: Delivery, task: Task, file: FileId, bucket: Bucket) returns (fate: ImageFate)
      requires ImageHere(d, ImageRun(task, file, Stem(task.key), bucket, Processing, Rendering(0)))
      modifies this
      ensures Went() && ImageGone(d, task, fate)
      ensures fate.Goes? ==> ImageHere(d, ImageRun(task, file, Stem(task.key), bucket, Processing, Rendering(|Names()|)))
      ensures fate.Goes? ==> Derivatives(Stem(task.key)) <= processed.Keys
    {
      hide IsRun;
      fate := Goes;
      var k := 0;
      while k < |Names()|
        invariant 0 <= k <= |Names()| && fate.Goes? && Went()
        invariant ImageHere(d, ImageRun(task, file, Stem(task.key), bucket, Processing, Rendering(k)))
      {
        fate := StoreOne(d, task, file, bucket, k);
        if !fate.Goes? { return; }
        k := k + 1;
      }
      AllStored(d);
    }

    /** Since then the object was read, and the job was processing. */
    ghost predicate ReadSince(from: nat, task: Task)
      reads this
    {
      Meanwhile(from, Present(task.key)) && Meanwhile(from, StatusOf(task.job, Processing))
    }

    /** And then both rows said that it is done. */
    ghost predicate RenderedSince(from: nat, task: Task)
      reads this
    {
      ReadSince(from, task) && Meanwhile(from, StatusOf(task.job, Completed)) && Meanwhile(from, BucketOf(task.job, Processed))
    }

    lemma AllStored(d: Delivery)
      requires Valid() && d in images && images[d].pc == Rendering(|Names()|)
      ensures Derivatives(images[d].uploadId) <= processed.Keys
    {
      hide IsRun;
      Knows();
      ImageOf(Now(), d);
    }

    /** Lines 139-143 */
    method CommitProcessed(d: Delivery, task: Task, file: FileId, bucket: Bucket) returns (fate: ImageFate)
      requires ImageHere(d, ImageRun(task, file, Stem(task.key), bucket, Processing, Rendering(|Names()|)))
      modifies this
      ensures Went() && ImageGone(d, task, fate)
      ensures fate.Goes? ==> ImageHere(d, ImageRun(task, file, Stem(task.key), Processed, Completed, Saved))
      ensures fate.Goes? ==> Writes(task.job, Completed) && Shelves(file, bucket, Processed) && file == jobs[task.job].file
    {
      hide IsRun, Step;
      fate := AwaitImage(d, ImageRun(task, file, Stem(task.key), bucket, Processing, Rendering(|Names()|)));
      if !fate.Goes? { return; }
      RowsAreThere(d);
      files := SetBucket(files, file, bucket, Processed);
      jobs := SetStatus(jobs, task.job, Processing, Completed);
      images := images[d := ImageRun(task, file, Stem(task.key), Processed, Completed, Saved)];
      OfBody(states[|log|], d, Save);
      Did(OfImage(d, Save));
    }

    method LeaveImage(d: Delivery, task: Task, file: FileId) returns (fate: ImageFate)
      requires ImageHere(d, ImageRun(task, file, Stem(task.key), Processed, Completed, Saved))
      modifies this
      ensures Went() && ImageGone(d, task, fate)
      ensures fate.Goes? ==> ImageHere(d, ImageRun(task, file, Stem(task.key), Processed, Completed, Finishing))
    {
      hide IsRun, Step;
      fate := AwaitImage(d, ImageRun(task, file, Stem(task.key), Processed, Completed, Saved));
      if !fate.Goes? { return; }
      images := images[d := ImageRun(task, file, Stem(task.key), Processed, Completed, Finishing)];
      OfBody(states[|log|], d, FinishImage);
      Did(OfImage(d, FinishImage));
    }

    /** Lines 81-106 */
    method ReadImage(d: Delivery, task: Task) returns (fate: ImageFate, file: FileId, bucket: Bucket)
      requires ImageHere(d, ImageRun(task, 0, "", Uploads, Pending, Arrived))
      modifies this
      ensures Went() && ImageGone(d, task, fate)
      ensures fate.Goes? ==> ImageHere(d, ImageRun(task, file, Stem(task.key), bucket, Processing, Fetched))
      ensures fate.Goes? ==> ReadSince(|old(log)|, task) && Meanwhile(|old(log)|, BucketOf(task.job, bucket))
    {
      hide IsRun, ImageGone, Had, Holds, Stem;
      var seen;
      fate, file, bucket, seen := OpenRows(d, task);
      if !fate.Goes? { return; }
      NowIs(|old(log)|, StatusOf(task.job, seen));
      NowIs(|old(log)|, BucketOf(task.job, bucket));
      ghost var s, l := states, log;
      fate := MarkProcessing(d, task, file, bucket, seen);
      if !fate.Goes? { return; }
      if seen != Processing { WrittenIs(|old(log)|, task.job, Processing); }
      Remember(s, l, |old(log)|);
      s, l := states, log;
      fate := FetchObject(d, task, file, bucket);
      if !fate.Goes? { return; }
      PresentNow(|old(log)|, task.key);
      Remember(s, l, |old(log)|);
    }

    lemma WrittenIs(from: nat, j: JobId, st: Status)
      requires Valid() && from <= |log| && Writes(j, st)
      ensures Meanwhile(from, StatusOf(j, st))
    {
      hide IsRun;
      NowIs(from, StatusOf(j, st));
    }

    lemma ShelvedIs(from: nat, j: JobId, b: Bucket, seen: Bucket)
      requires Valid() && from <= |log| && j in jobs && Shelves(jobs[j].file, seen, b) && seen != b
      ensures Meanwhile(from, BucketOf(j, b))
    {
      hide IsRun;
      NowIs(from, BucketOf(j, b));
    }

    lemma AbsentNow(from: nat, key: Key)
      requires Valid() && from <= |log| && key !in uploads
      ensures Meanwhile(from, Absent(key))
    {
      hide IsRun;
      NowIs(from, Absent(key));
    }

    lemma PresentNow(from: nat, key: Key)
      requires Valid() && from <= |log| && key in uploads
      ensures Meanwhile(from, Present(key))
    {
      hide IsRun;
      NowIs(from, Present(key));
    }

    /** Lines 81-138 */
    method Render(d: Delivery, task: Task) returns (fate: ImageFate, file: FileId, bucket: Bucket)
      requires ImageHere(d, ImageRun(task, 0, "", Uploads, Pending, Arrived))
      modifies this
      ensures Went() && ImageGone(d, task, fate)
      ensures fate.Goes? ==> ImageHere(d, ImageRun(task, file, Stem(task.key), bucket, Processing, Rendering(|Names()|)))
      ensures fate.Goes? ==> Derivatives(Stem(task.key)) <= processed.Keys
      ensures fate.Goes? ==> ReadSince(|old(log)|, task) && Meanwhile(|old(log)|, BucketOf(task.job, bucket))
    {
      hide IsRun, Derivatives, ImageGone, Had, Stem;
      fate, file, bucket := ReadImage(d, task);
      if !fate.Goes? { return; }
      ghost var s, l := states, log;
      fate := RenderImage(d, task, file, bucket);
      if !fate.Goes? { return; }
      fate := StoreAll(d, task, file, bucket);
      Remember(s, l, |old(log)|);
    }

    /** The `try` block. */
    method RenderFile(d: Delivery, task: Task) returns (fate: ImageFate)
      requires ImageHere(d, ImageRun(task, 0, "", Uploads, Pending, Arrived))
      modifies this
      ensures Went() && ImageGone(d, task, fate)
      ensures fate.Goes? ==> d in images && images[d].task == task && images[d].pc.Finishing?
      ensures fate.Goes? ==> Derivatives(Stem(task.key)) <= processed.Keys
      ensures fate.Goes? ==> RenderedSince(|old(log)|, task)
    {
      hide IsRun, Derivatives, ImageGone, Had, Stem;
      var file, bucket;
      fate, file, bucket := Render(d, task);
      if !fate.Goes? { return; }
      ghost var n, s, l := |log|, states, log;
      fate := CommitProcessed(d, task, file, bucket);
      if !fate.Goes? { return; }
      WrittenIs(|old(log)|, task.job, Completed);
      if bucket != Processed { ShelvedIs(|old(log)|, task.job, Processed, bucket); }
      Remember(s, l, |old(log)|);
      s, l := states, log;
      fate := LeaveImage(d, task, file);
      Remember(s, l, |old(log)|);
      GrewSince(n);
    }

    /** Others run; then the handler goes on, raises again, or dies. */
    method AwaitImageLate(d: Delivery, ghost x: ImageRun, works: bool) returns (fate: Fate)
      requires ImageHere(d, x)
      modifies this
      ensures Went() && (works ==> !fate.RaisedHere?)
      ensures if fate.Died? then d !in images && Ended(OfImage(d, CrashImage)) else ImageHere(d, x)
    {
      hide IsRun;
      Others(Imager(d));
      fate := *;
      if works && fate.RaisedHere? { fate := Returned; }
      if fate.Died? {
        Perform(OfImage(d, CrashImage));
      }
    }

    /** Lines 152-160: the failure report, and reject with requeue. */
    method FailImage(d: Delivery, works: bool) returns (fate: Fate)
      requires Valid() && d in images && images[d].pc.Broken?
      modifies this
      ensures Went() && d !in images
      ensures if fate.Died? then Ended(OfImage(d, CrashImage))
              else !Current(imageQueue, d.msg, d.tag) && Ended(OfImage(d, GiveBackImage)) && GoesBack(Last().imageQueue, imageQueue, d)
      ensures works && !fate.Died? ==> Happened(|old(log)|, OfImage(d, Tell))
    {
      hide IsRun, Step, Had, Took;
      fate := AwaitImageLate(d, images[d], works);
      if fate.Died? { return; }
      ghost var s, l := states, log;
      if fate.Returned? {
        TellIt(d);
        Remember(s, l, |old(log)|);
        s, l := states, log;
      }
      ReturnImage(d);
      Remember(s, l, |old(log)|);
    }

    method TellIt(d: Delivery)
      requires Valid() && d in images && images[d].pc.Broken?
      modifies this
      ensures Went() && d in images && images[d].pc.Told? && Happened(|old(log)|, OfImage(d, Tell))
    {
      hide IsRun, Step;
      images := images[d := images[d].(pc := Told(if LastDelivery(d) then SaysDeadLetter else SaysRetry))];
      OfTail(states[|log|], d, Tell);
      Did(OfImage(d, Tell));
      assert log[|old(log)|] == OfImage(d, Tell);
    }

    method ReturnImage(d: Delivery)
      requires Valid() && d in images && (images[d].pc.Broken? || images[d].pc.Told?)
      modifies this
      ensures Went() && d !in images && !Current(imageQueue, d.msg, d.tag)
      ensures Ended(OfImage(d, GiveBackImage)) && GoesBack(Last().imageQueue, imageQueue, d)
    {
      hide IsRun, Step;
      imageQueue := Return(imageQueue, d.msg, d.tag);
      images := images - {d};
      OfTail(states[|log|], d, GiveBackImage);
      Did(OfImage(d, GiveBackImage));
    }

    method AckImageTask(d: Delivery, task: Task) returns (fate: Fate)
      requires Valid() && d in images && images[d].task == task && images[d].pc.Finishing?
      requires Derivatives(Stem(task.key)) <= processed.Keys
      modifies this
      ensures Went() && d !in images
      ensures if fate.Died? then Ended(OfImage(d, CrashImage))
              else !Current(imageQueue, d.msg, d.tag) && Ended(OfImage(d, AckImage)) && Leaves(Last().imageQueue, imageQueue, d, Acked)
      ensures Derivatives(Stem(task.key)) <= processed.Keys && task.job in cleared
    {
      hide IsRun, Derivatives, Step;
      ghost var n := |log|;
      ImageIsCleared(d);
      fate := AwaitImageLate(d, images[d], false);
      if !fate.Died? {
        imageQueue := Ack(imageQueue, d.msg, d.tag);
        images := images - {d};
        OfTail(states[|log|], d, AckImage);
        Did(OfImage(d, AckImage));
      }
      GrewSince(n);
    }

    lemma ImageIsCleared(d: Delivery)
      requires Valid() && d in images
      ensures images[d].task.job in cleared
    {
      hide IsRun;
      Knows();
      ImageOf(Now(), d);
    }

    /** Where the message is when a run of the image worker ends, if the run held it until then. */
    ghost predicate ImageSettledAs(end: ImageEnd, d: Delivery)
      reads this
    {
      match end
      case Killed => Ended(OfImage(d, CrashImage))
      case SentBack => Ended(OfImage(d, GiveBackImage)) && GoesBack(Last().imageQueue, imageQueue, d)
      case Rendered => Ended(OfImage(d, AckImage)) && Leaves(Last().imageQueue, imageQueue, d, Acked)
      case GivenUp => Ended(OfImage(d, Swallow)) && Leaves(Last().imageQueue, imageQueue, d, Acked)
    }

    /** The six names, spelled out. */
    ghost predicate SixStored(uploadId: string)
      reads this
    {
      forall size, format | size in {"128", "512", "1024"} && format in {"webp", "jpeg"} ::
        uploadId + "/" + size + "." + format in processed
    }

    /** `process_image`.  If it runs to its end, it has read the object, stored all derivatives of
        a job that a scan had cleared, and written both rows; a run that raises gives its message
        back, and one that swallows the exception acknowledges it. */
    method ProcessImage(d: Delivery, works: bool) returns (end: ImageEnd)
      requires Valid() && Waiting(imageQueue, d.msg) && d.tag == imageQueue[d.msg].deliveries + 1 && d !in images
      modifies this
      ensures Went() && d !in images
      ensures end != Killed ==> !Current(imageQueue, d.msg, d.tag)
      ensures ImageSettledAs(end, d)
      ensures end == Rendered ==> SixStored(Stem(old(imageQueue[d.msg].body.task.key)))
      ensures end == Rendered ==> old(imageQueue[d.msg].body.task.job) in cleared
      ensures end == Rendered ==> RenderedSince(|old(log)|, old(imageQueue[d.msg].body.task))
      ensures end == SentBack && works ==> Happened(|old(log)|, OfImage(d, Tell))
      ensures end == SentBack ==> ImageExcused(states, log, |old(log)|, d, old(imageQueue[d.msg].body.task))
    {
      hide IsRun, Derivatives, Had, ImageExcused, SixStored, Stem;
      var task := TakeImage(d);
      ghost var s, l := states, log;
      var fate := RenderFile(d, task);
      Remember(s, l, |old(log)|);
      s, l := states, log;
      match fate
      case Goes =>
        var ack := AckImageTask(d, task);
        end := if ack.Died? then Killed else Rendered;
        Remember(s, l, |old(log)|);
        AllSix(Stem(task.key));
      case Raises =>
        ImageIsExcused(d, task, |old(log)|);
        var given := FailImage(d, works);
        end := if given.Died? then Killed else SentBack;
        ImageStaysExcused(s, l, d, task, |old(log)|);
      case Swallows => end := GivenUp;
      case Dies => end := Killed;
    }

    lemma AllSix(uploadId: string)
      requires Derivatives(uploadId) <= processed.Keys
      ensures SixStored(uploadId)
    {
      forall size, format | size in {"128", "512", "1024"} && format in {"webp", "jpeg"}
        ensures uploadId + "/" + size + "." + format in processed
      {
        var k := SixNames(uploadId, size, format);
        assert Derivative(uploadId, k) in Derivatives(uploadId);
      }
    }

    lemma ImageIsExcused(d: Delivery, task: Task, from: nat)
      requires Valid() && d in images && ImageGone(d, task, Raises) && from < |log|
      ensures ImageExcused(states, log, from, d, task)
    {
      hide IsRun, ImageExcuse;
      assert ImageExcuse(states[|log| - 1], log[|log| - 1], d, task);
    }

    lemma ImageStaysExcused(s: seq<State>, l: seq<Event>, d: Delivery, task: Task, from: nat)
      requires s <= states && l <= log && ImageExcused(s, l, from, d, task)
      ensures ImageExcused(states, log, from, d, task)
    {
      hide ImageExcuse;
      var n: nat :| from <= n < |l| && n < |s| && ImageExcuse(s[n], l[n], d, task);
      assert states[n] == s[n] && log[n] == l[n];
    }

    /***** api/main.py *****/

    ghost predicate Serving(u: nat, r: Request)
      reads this
    {
      Valid() && u in requests && requests[u] == r
    }

    /** An exception anywhere: rollback, and HTTP 500. */
    method AwaitRequest(u: nat, ghost r: Request) returns (ok: bool)
      requires Serving(u, r)
      modifies this
      ensures Went()
      ensures if ok then Serving(u, r) else u !in requests && Ended(OfRequest(u, AbortRequest))
    {
      hide IsRun;
      Others(Client(u));
      ok := *;
      if !ok {
        Perform(OfRequest(u, AbortRequest));
      }
    }

    /** Lines 58-74: name and MIME type are checked, the digest makes the key. */
    method Admit(u: nat, hash: string, ext: string, developer: Developer, mimeMatches: bool) returns (ok: bool)
      requires Valid() && u !in requests && DotFree(hash)
      modifies this
      ensures Went() && ok == (!KindOf(ext).Refused? && mimeMatches)
      ensures if ok then Serving(u, Request(hash, ext, developer, Hashed)) else u !in requests
    {
      hide IsRun;
      ok := !KindOf(ext).Refused? && mimeMatches;
      if ok {
        requests := requests[u := Request(hash, ext, developer, Hashed)];
        Did(OfRequest(u, Receive(hash, ext, developer)));
      }
    }

    /** The upload is answered with job `j`: it is of that digest and developer, and neither lost
        nor waiting to be tried again. */
    ghost predicate InTheWay(j: JobId, hash: string, developer: Developer)
      reads this
    {
      && j in jobs && jobs[j].file in files && files[jobs[j].file].uploadId == hash && files[jobs[j].file].developer == developer
      && jobs[j].status !in {Infected, Quarantined, Failed, QueuedForRetry}
    }

    /** Lines 75-95 */
    method LookForDuplicate(u: nat, hash: string, ext: string, developer: Developer) returns (response: Response)
      requires Serving(u, Request(hash, ext, developer, Hashed))
      modifies this
      ensures Went()
      ensures match response
              case Accepted(_) => Serving(u, Request(hash, ext, developer, Checked)) && Holds(Now(), NoneInTheWay(hash, developer))
              case BadRequest => false
              case AlreadyThere(j) => u !in requests && InTheWay(j, hash, developer)
              case ServerError => u !in requests && Ended(OfRequest(u, AbortRequest))
    {
      hide IsRun;
      var ok := AwaitRequest(u, Request(hash, ext, developer, Hashed));
      if !ok { return ServerError; }
      NothingIsInTheWay(Now(), hash, developer);
      var earlier := EarlierJobs(jobs, files, hash, developer);
      if earlier == {} {
        requests := requests[u := Request(hash, ext, developer, Checked)];
        Did(OfRequest(u, NoDuplicate));
        return Accepted(0);
      }
      var j :| j in earlier;
      if Blocks(jobs[j].status) {
        response := AlreadyThere(j);
        requests := requests - {u};
      } else {
        response := Accepted(0);
        requests := requests[u := Request(hash, ext, developer, Checked)];
      }
      Did(OfRequest(u, Deduplicate(j)));
    }

    /** Lines 96-98: the object is stored before any row names it. */
    method StoreUpload(u: nat, hash: string, ext: string, developer: Developer) returns (ok: bool)
      requires Serving(u, Request(hash, ext, developer, Checked))
      modifies this
      ensures Went()
      ensures if ok then Serving(u, Request(hash, ext, developer, Stored)) && hash + ext in uploads
              else u !in requests && Ended(OfRequest(u, AbortRequest))
    {
      hide IsRun;
      ok := AwaitRequest(u, Request(hash, ext, developer, Checked));
      if !ok { return; }
      uploads := uploads + {hash + ext};
      requests := requests[u := Request(hash, ext, developer, Stored)];
      Did(OfRequest(u, Store));
    }

    /** Lines 100-118: both rows in one commit, under new uuids; a clash is an error. */
    method CommitUpload(u: nat, hash: string, ext: string, developer: Developer, job: JobId, file: FileId) returns (ok: bool)
      requires Serving(u, Request(hash, ext, developer, Stored))
      modifies this
      ensures Went()
      ensures if ok then
                && Serving(u, Request(hash, ext, developer, Committed(job)))
                && Holds(Now(), RowsOf(job, file, FileRow(ext, hash, hash + ext, developer, Uploads)))
                && job !in old(jobs) && job !in Last().jobs && file !in Last().files
              else u !in requests && Ended(OfRequest(u, AbortRequest))
    {
      hide IsRun, Step, Holds;
      ok := AwaitRequest(u, Request(hash, ext, developer, Stored));
      if !ok { return; }
      if job in jobs || file in files {
        Aborting(Now(), u);
        requests := requests - {u};
        Did(OfRequest(u, AbortRequest));
        return false;
      }
      JobsStay(|old(log)|);
      Committing(Now(), u, job, file);
      files := files[file := FileRow(ext, hash, hash + ext, developer, Uploads)];
      jobs := jobs[job := JobRow(file, Pending)];
      requests := requests[u := Request(hash, ext, developer, Committed(job))];
      Did(OfRequest(u, CommitRows(job, file)));
      RowsAre(Now(), job, file);
    }

    /** Lines 119-124 */
    method PublishUpload(u: nat, hash: string, ext: string, developer: Developer, job: JobId) returns (ok: bool, ghost m: nat)
      requires Serving(u, Request(hash, ext, developer, Committed(job)))
      modifies this
      ensures Went()
      ensures if ok then Serving(u, Request(hash, ext, developer, Announced)) else u !in requests && Ended(OfRequest(u, AbortRequest))
      ensures ok ==> m < |scanQueue| && scanQueue == Last().scanQueue + [Message(Task(job, hash + ext, developer), 0, 0, Ready)]
      ensures ok ==> |old(scanQueue)| <= m == |Last().scanQueue|
    {
      hide IsRun;
      m := 0;
      ok := AwaitRequest(u, Request(hash, ext, developer, Committed(job)));
      if !ok { return; }
      GrewSince(|old(log)|);
      m := |scanQueue|;
      scanQueue := Publish(scanQueue, Task(job, hash + ext, developer));
      requests := requests[u := Request(hash, ext, developer, Announced)];
      Did(OfRequest(u, PublishScan));
    }

    /** Lines 131-139 */
    method RespondUpload(u: nat, hash: string, ext: string, developer: Developer, ghost m: nat) returns (ok: bool)
      requires Serving(u, Request(hash, ext, developer, Announced)) && m < |scanQueue|
      modifies this
      ensures Went() && u !in requests && Ended(OfRequest(u, if ok then Respond else AbortRequest))
      ensures m < |scanQueue| && scanQueue[m].body == old(scanQueue[m].body)
    {
      hide IsRun;
      ok := AwaitRequest(u, Request(hash, ext, developer, Announced));
      if ok {
        requests := requests - {u};
        Did(OfRequest(u, Respond));
      }
      GrewSince(|old(log)|);
    }

    /** `upload_file`.  An accepted upload found, before it committed rows of its own, no job of its digest and developer
        that was neither lost nor waiting to be tried again; then stored its object, committed its
        rows, and published a scan task that names both. */
    method UploadFile(u: nat, hash: string, ext: string, developer: Developer, mimeMatches: bool, job: JobId, file: FileId)
      returns (response: Response)
      requires Valid() && u !in requests && DotFree(hash)
      modifies this
      ensures Went() && u !in requests
      ensures response.BadRequest? <==> ext !in {".pdf", ".png", ".jpeg", ".ppt", ".mkv", ".txt"} || !mimeMatches
      ensures response.Accepted? ==>
                && response.job == job && Scheduled(Task(job, hash + ext, developer))
                && Uploaded(|old(log)|, |old(scanQueue)|, FileRow(ext, hash, hash + ext, developer, Uploads), job, file)
      ensures response.AlreadyThere? ==> InTheWay(response.job, hash, developer)
      ensures response.ServerError? ==> Ended(OfRequest(u, AbortRequest))
    {
      hide IsRun, EarlierJobs, Blocks, Scheduled, Had, Holds, InTheWay;
      var ok := Admit(u, hash, ext, developer, mimeMatches);
      if !ok { return BadRequest; }
      response := LookForDuplicate(u, hash, ext, developer);
      if !response.Accepted? { return; }
      LongerQueue(|old(log)|);
      ghost var s, l := states, log;
      ok := Schedule(u, hash, ext, developer, job, file);
      Remember(s, l, |old(log)|);
      assert states[|l|] == s[|l|];
      return if ok then Accepted(job) else ServerError;
    }

    lemma JobsStay(n: nat)
      requires Valid() && n <= |log|
      ensures forall j | j in states[n].jobs :: j in jobs
    {
      hide IsRun;
      GrewSince(n);
    }

    lemma LongerQueue(n: nat)
      requires Valid() && n <= |log|
      ensures |states[n].scanQueue| <= |scanQueue|
    {
      hide IsRun;
      GrewSince(n);
    }

    /** What an accepted upload has seen and done since the log had `from` entries, when the queue
        held `waiting` scan tasks. */
    ghost predicate Uploaded(from: nat, waiting: nat, row: FileRow, job: JobId, file: FileId)
      reads this
    {
      && (exists n: nat {:trigger states[n]} :: from <= n < |states| && Holds(states[n], NoneInTheWay(row.uploadId, row.developer)) && job !in states[n].jobs)
      && Meanwhile(from, Present(row.location))
      && Meanwhile(from, RowsOf(job, file, row))
      && exists m: nat :: waiting <= m < |scanQueue| && scanQueue[m].body == Task(job, row.location, row.developer)
    }

    /** The rows of a task are committed, its object is kept, and a message names both. */
    ghost predicate Scheduled(t: Task)
      reads this
    {
      TaskOk(Now(), t) && Kept(Now(), t.key) && exists m :: 0 <= m < |scanQueue| && scanQueue[m].body == t
    }

    method Schedule(u: nat, hash: string, ext: string, developer: Developer, job: JobId, file: FileId) returns (ok: bool)
      requires Serving(u, Request(hash, ext, developer, Checked))
      modifies this
      ensures Went() && u !in requests && (!ok ==> Ended(OfRequest(u, AbortRequest)))
      ensures ok ==> Scheduled(Task(job, hash + ext, developer))
      ensures ok ==>
                && Meanwhile(|old(log)|, Present(hash + ext))
                && Meanwhile(|old(log)|, RowsOf(job, file, FileRow(ext, hash, hash + ext, developer, Uploads))) && job !in old(jobs)
                && exists m: nat :: |old(scanQueue)| <= m < |scanQueue| && scanQueue[m].body == Task(job, hash + ext, developer)
    {
      hide IsRun, Had, Holds, RequestOk, FileOk, TaskOk;
      ok := StoreUpload(u, hash, ext, developer);
      if !ok { return; }
      PresentNow(|old(log)|, hash + ext);
      JobsStay(|old(log)|);
      ghost var s, l := states, log;
      ok := CommitUpload(u, hash, ext, developer, job, file);
      if !ok { return; }
      NowIs(|old(log)|, RowsOf(job, file, FileRow(ext, hash, hash + ext, developer, Uploads)));
      Remember(s, l, |old(log)|);
      s, l := states, log;
      LongerQueue(|old(log)|);
      ghost var m;
      ok, m := PublishUpload(u, hash, ext, developer, job);
      if !ok { return; }
      ok := RespondUpload(u, hash, ext, developer, m);
      Remember(s, l, |old(log)|);
      ScanTaskIsGood(m);
    }

    lemma ScanTaskIsGood(m: nat)
      requires Valid() && m < |scanQueue|
      ensures TaskOk(Now(), scanQueue[m].body) && Kept(Now(), scanQueue[m].body.key)
    {
      hide IsRun;
      Knows();
      assert TaskOk(Now(), scanQueue[m].body);
      FileOf(Now(), jobs[scanQueue[m].body.job].file);
    }
  }
}
