/** What a quarantine webhook stands for: the object has been deleted from the uploads bucket,
    and is there again only if somebody has uploaded it again. */
module PipelineRemoval {
  import opened Broker
  import opened Keys
  import opened Pipeline
  import opened PipelineFrames
  import opened PipelineInvariant
  import opened PipelineContent

  /** A quarantine webhook that is new was announced by a scan that had deleted its object. */
  lemma NewAnnouncements(s: State, e: Event, n: Notice)
    requires n in Step(s, e).notices && n.event.JobQuarantined?
    ensures n in s.notices || (n.source in s.scans && Removed(s.scans[n.source].pc) && n.job == s.scans[n.source].task.job)
  {
    hide ScanBody, ScanTail, ImageStep, Explained, Deliver, Waiting, Return;
    match e
    case OfRequest(u, a) => UploadsAnnounceNothing(s, u, a);
    case OfScan(d, a) => if d in s.scans && !a.TakeScan? && !a.CrashScan? { OwnScanExplained(s, d, a); }
    case OfImage(d, a) => ImageFrame(s, d, a);
    case LoseScan(_) =>
    case LoseImage(_) =>
  }

  lemma UploadsAnnounceNothing(s: State, u: nat, a: UploadAction)
    ensures UploadStep(s, u, a).notices == s.notices
  {
    hide KeyOf, Blocks, EarlierJobs, WellFormed, Publish;
  }

  /** Event `i` is the deletion of the object of `t` by delivery `d`, and the object is gone. */
  ghost predicate Removal(states: seq<State>, log: seq<Event>, i: nat, d: Delivery, t: Task) {
    i < |log| < |states| && Removes(states[i], log[i], states[i + 1], d, t)
  }

  ghost predicate WasRemoved(states: seq<State>, log: seq<Event>, n: nat, d: Delivery, t: Task) {
    exists i: nat :: i < n && Removal(states, log, i, d, t)
  }

  lemma {:induction false} ScansHaveRemoved(states: seq<State>, log: seq<Event>, n: nat, d: Delivery)
    requires IsRun(states, log) && n <= |log| && d in states[n].scans && Removed(states[n].scans[d].pc)
    ensures WasRemoved(states, log, n, d, states[n].scans[d].task)
  {
    hide Step, Removes, Spools, Passes;
    if n > 0 {
      var s, e := states[n - 1], log[n - 1];
      StepExplains(s, e, d);
      assert states[n - 1 + 1] == Step(s, e);
      if Removed(s.scans[d].pc) {
        ScansHaveRemoved(states, log, n - 1, d);
      } else {
        assert Removal(states, log, n - 1, d, s.scans[d].task);
      }
    }
  }

  /** Behind each quarantine webhook is a deletion by the delivery that sent it. */
  lemma {:induction false} AnnouncedIsRemoved(states: seq<State>, log: seq<Event>, n: nat, w: Notice) returns (i: nat, t: Task)
    requires IsRun(states, log) && n <= |log| && w in states[n].notices && w.event.JobQuarantined?
    ensures i < n && Removal(states, log, i, w.source, t) && t.job == w.job
  {
    hide Step, Removal;
    var s := states[n - 1];
    NewAnnouncements(s, log[n - 1], w);
    if w in s.notices {
      i, t := AnnouncedIsRemoved(states, log, n - 1, w);
    } else {
      t := s.scans[w.source].task;
      ScansHaveRemoved(states, log, n - 1, w.source);
      i :| i < n - 1 && Removal(states, log, i, w.source, t);
    }
  }

  /** An object that was not there is there again only if it was stored meanwhile. */
  lemma {:induction false} OnlyStoresBringBack(states: seq<State>, log: seq<Event>, m: nat, n: nat, key: Key)
    requires IsRun(states, log) && m <= n <= |log| && key !in states[m].uploads
    ensures key in states[n].uploads ==> exists k: nat {:trigger log[k]} :: m <= k < n && Stores(states[k], log[k], key)
  {
    hide Step, Stores;
    if m < n && key in states[n].uploads {
      OnlyStoresAdd(states[n - 1], log[n - 1], key);
      assert states[n - 1 + 1] == Step(states[n - 1], log[n - 1]);
      if key in states[n - 1].uploads { OnlyStoresBringBack(states, log, m, n - 1, key); }
    }
  }

  /** In every run: once a quarantine webhook is published, the delivery that sent it has deleted
      the file of its job from the uploads bucket, and the file is there only if a request has
      stored its key after that deletion. */
  lemma {:induction false} QuarantineTakesAway(states: seq<State>, log: seq<Event>, n: nat, w: Notice)
    requires IsRun(states, log) && n <= |log| && w in states[n].notices && w.event.JobQuarantined?
    ensures var s := states[n]; w.job in s.jobs && s.jobs[w.job].file in s.files
    ensures var key := states[n].files[states[n].jobs[w.job].file].location;
      exists i: nat, t: Task :: i < n && Removal(states, log, i, w.source, t) && t.job == w.job && t.key == key
        && (key in states[n].uploads ==> exists k: nat {:trigger log[k]} :: i < k < n && Stores(states[k], log[k], key))
  {
    hide Step, Stores, Inv;
    var i, t := AnnouncedIsRemoved(states, log, n, w);
    RemovalNames(states, log, i, w.source, t);
    RunKeeps(states, log, i);
    ScanOf(states[i], w.source);
    RunGrows(states, log, i, n);
    OnlyStoresBringBack(states, log, i + 1, n, t.key);
  }

  lemma RemovalNames(states: seq<State>, log: seq<Event>, i: nat, d: Delivery, t: Task)
    requires Removal(states, log, i, d, t)
    ensures i < |log| < |states| && d in states[i].scans && states[i].scans[d].task == t && t.key !in states[i + 1].uploads
  {
  }
}
