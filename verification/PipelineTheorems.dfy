/** What holds in every state that any run of the pipeline reaches: any number of
    uploads and workers, any interleaving, crashes and lost connections anywhere. */
module PipelineTheorems {
  import opened Broker
  import opened Keys
  import opened Pipeline
  import opened PipelineFrames
  import opened PipelineInvariant

  /***** Storage *****/

  /** No committed file row ever loses its object, and the bucket column never claims a
      move that did not happen. */
  lemma StoredFilesSurvive(states: seq<State>, log: seq<Event>, n: nat, f: FileId)
    requires IsRun(states, log) && n <= |log| && f in states[n].files
    ensures var s := states[n];
      var row := s.files[f];
      && (row.location in s.uploads || row.location in s.quarantine)
      && (row.bucket.Quarantine? ==> row.location in s.quarantine)
      && (row.bucket.Processed? ==> forall k: nat :: k < |Names()| ==> Derivative(row.uploadId, k) in s.processed)
  {
    RunKeeps(states, log, n);
    var s := states[n];
    FileOf(s, f);
    assert forall k: nat :: k < |Names()| ==> Derivative(s.files[f].uploadId, k) in Derivatives(s.files[f].uploadId);
  }

  /** What is announced is real as well: a job in status quarantined, and the job of a
      quarantine webhook, have their file in the quarantine bucket. */
  lemma QuarantineIsReal(states: seq<State>, log: seq<Event>, n: nat, j: JobId)
    requires IsRun(states, log) && n <= |log| && j in states[n].jobs
    requires var s := states[n];
      s.jobs[j].status.Quarantined?
      || exists i :: 0 <= i < |s.notices| && s.notices[i].event.JobQuarantined? && s.notices[i].job == j
    ensures var s := states[n]; s.jobs[j].file in s.files && s.files[s.jobs[j].file].location in s.quarantine
  {
    RunKeeps(states, log, n);
    var s := states[n];
    JobOf(s, j);
    if i :| 0 <= i < |s.notices| && s.notices[i].event.JobQuarantined? && s.notices[i].job == j {
      assert NoticeOk(s, s.notices[i]);
    }
  }

  /***** The scan gate *****/

  /** `e` is a scan of job `j` answering OK. */
  predicate Clears(s: State, e: Event, j: JobId) {
    e.OfScan? && e.scan == Judge(Ok) && e.delivery in s.scans
    && s.scans[e.delivery].pc.Spooled? && s.scans[e.delivery].task.job == j
  }

  /** Among the first `n` events, a scan of job `j` answered OK. */
  ghost predicate EverCleared(states: seq<State>, log: seq<Event>, n: nat, j: JobId)
    requires |states| == |log| + 1 && n <= |log|
  {
    exists i {:trigger Clears(states[i], log[i], j)} :: 0 <= i < n && Clears(states[i], log[i], j)
  }

  lemma StepClears(s: State, e: Event, j: JobId)
    ensures j in Step(s, e).cleared <==> j in s.cleared || Clears(s, e, j)
  {
    hide UploadStep, ScanBody, ScanTail, ImageStep;
    match e
    case OfRequest(u, a) => UploadFrame(s, u, a);
    case OfScan(d, a) => if d in s.scans && !a.TakeScan? && !a.CrashScan? { ScanFrame(s, d, a, j); }
    case OfImage(d, a) => ImageFrame(s, d, a);
    case LoseScan(_) =>
    case LoseImage(_) =>
  }

  lemma {:induction false} ClearedMeansVerdict(states: seq<State>, log: seq<Event>, n: nat, j: JobId)
    requires IsRun(states, log) && n <= |log|
    ensures j in states[n].cleared <==> EverCleared(states, log, n, j)
  {
    if n > 0 {
      ClearedMeansVerdict(states, log, n - 1, j);
      StepClears(states[n - 1], log[n - 1], j);
      hide Step;
      assert EverCleared(states, log, n, j) <==> EverCleared(states, log, n - 1, j) || Clears(states[n - 1], log[n - 1], j);
    }
  }

  ghost predicate TouchedDownstream(s: State, j: JobId) {
    || (j in s.jobs && Downstream(s.jobs[j].status))
    || (exists i :: 0 <= i < |s.imageQueue| && s.imageQueue[i].body.task.job == j)
    || (exists name :: name in s.processed && s.processed[name] == j)
    || (exists i :: 0 <= i < |s.notices| && s.notices[i].event.JobCompleted? && s.notices[i].job == j)
  }

  /** Nothing happens to a job behind the scanner before one of its own scans has
      answered OK: no status clean, processing or completed, no image task, no stored
      derivative, no completion webhook. */
  lemma ScanGate(states: seq<State>, log: seq<Event>, n: nat, j: JobId)
    requires IsRun(states, log) && n <= |log| && TouchedDownstream(states[n], j)
    ensures EverCleared(states, log, n, j)
  {
    RunKeeps(states, log, n);
    var s := states[n];
    if j in s.jobs && Downstream(s.jobs[j].status) {
      JobOf(s, j);
    } else if i :| 0 <= i < |s.imageQueue| && s.imageQueue[i].body.task.job == j {
      assert ImageTaskOk(s, s.imageQueue[i].body);
    } else if i :| 0 <= i < |s.notices| && s.notices[i].event.JobCompleted? && s.notices[i].job == j {
      assert NoticeOk(s, s.notices[i]);
    }
    ClearedMeansVerdict(states, log, n, j);
  }

  /***** What messages name *****/

  ghost predicate Published(s: State, t: Task) {
    || (exists i :: 0 <= i < |s.scanQueue| && s.scanQueue[i].body == t)
    || (exists i :: 0 <= i < |s.imageQueue| && s.imageQueue[i].body.task == t)
  }

  /** Every scan and every image task names a committed job whose file row has the key of
      the message, and the key cut at its first dot as upload id. */
  lemma TasksNameTheirJob(states: seq<State>, log: seq<Event>, n: nat, t: Task)
    requires IsRun(states, log) && n <= |log| && Published(states[n], t)
    ensures var s := states[n];
      t.job in s.jobs && s.jobs[t.job].file in s.files
      && s.files[s.jobs[t.job].file].location == t.key && s.files[s.jobs[t.job].file].uploadId == Stem(t.key)
  {
    RunKeeps(states, log, n);
    var s := states[n];
    if i :| 0 <= i < |s.imageQueue| && s.imageQueue[i].body.task == t {
      assert ImageTaskOk(s, s.imageQueue[i].body);
    }
  }

  /** So the branches for a missing job, a missing file row and a wrong hash never run,
      and a lookup by key that finds one row has found the job's own. */
  lemma DefensiveBranchesAreDead(states: seq<State>, log: seq<Event>, n: nat, d: Delivery)
    requires IsRun(states, log) && n <= |log|
    ensures var s := states[n];
      && (d in s.scans ==> !s.scans[d].pc.NoJob?)
      && (d in s.images ==> !s.images[d].pc.Mismatch?)
      && (d in s.scans ==>
            var x := s.scans[d];
            && Matches(s.files, x.task.key) != {}
            && (forall f :: Matches(s.files, x.task.key) == {f} ==> x.task.job in s.jobs && f == s.jobs[x.task.job].file))
  {
    hide Inv, Step;
    RunKeeps(states, log, n);
    var s := states[n];
    if d in s.scans {
      ScanOf(s, d);
      assert s.jobs[s.scans[d].task.job].file in Matches(s.files, s.scans[d].task.key);
    }
    if d in s.images {
      ImageOf(s, d);
    }
  }
}
