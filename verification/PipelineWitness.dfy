/** The failure report that is not true: a run in which clamd drops the connection on the last
    delivery, "queued_for_retry" is reported, and the message is dead-lettered. */
module PipelineWitness {
  import opened Broker
  import opened Keys
  import opened Pipeline

  const KEY: Key := "0.png"
  const TASK := Task(0, KEY, 0)

  function Row(): FileRow { FileRow(".png", "0", KEY, 0, Uploads) }

  /** One upload, its scan task, and the scans under way. */
  function Scene(m: Message<Task>, status: Status, scans: map<Delivery, Scan>): State {
    State({KEY}, {}, map[], map[0 := Row()], map[0 := JobRow(0, status)], [m], [], [],
          map[0 := Request("0", ".png", 0, Announced)], scans, map[], {})
  }

  lemma More(states: seq<State>, log: seq<Event>, e: Event) returns (states': seq<State>, log': seq<Event>)
    requires |states| == |log| + 1 && IsRun(states, log)
    ensures |states'| == |log'| + 1 && IsRun(states', log') && states'[|log'|] == Step(states[|log|], e)
    ensures log' == log + [e] && states <= states'
  {
    hide Step;
    states', log' := states + [Step(states[|log|], e)], log + [e];
  }

  function Uploading(files: map<FileId, FileRow>, jobs: map<JobId, JobRow>, uploads: set<Key>, q: Queue<Task>, pc: RequestPc): State {
    State(uploads, {}, map[], files, jobs, q, [], [], map[0 := Request("0", ".png", 0, pc)], map[], map[], {})
  }

  lemma ReceivingSteps()
    ensures Step(EMPTY, OfRequest(0, Receive("0", ".png", 0))) == Uploading(map[], map[], {}, [], Hashed)
    ensures Step(Uploading(map[], map[], {}, [], Hashed), OfRequest(0, NoDuplicate)) == Uploading(map[], map[], {}, [], Checked)
  {
    assert EarlierJobs(map[], map[], "0", 0) == {};
    hide ScanStep, ImageStep;
  }

  lemma StoringStep()
    ensures Step(Uploading(map[], map[], {}, [], Checked), OfRequest(0, Store)) == Uploading(map[], map[], {KEY}, [], Stored)
  {
    assert "0" + ".png" == KEY;
    hide ScanStep, ImageStep, KEY;
  }

  lemma CommittingStep()
    ensures Step(Uploading(map[], map[], {KEY}, [], Stored), OfRequest(0, CommitRows(0, 0))) ==
            Uploading(map[0 := Row()], map[0 := JobRow(0, Pending)], {KEY}, [], Committed(0))
  {
    assert "0" + ".png" == KEY;
    hide ScanStep, ImageStep, KEY;
  }

  lemma PublishingStep()
    ensures Step(Uploading(map[0 := Row()], map[0 := JobRow(0, Pending)], {KEY}, [], Committed(0)), OfRequest(0, PublishScan)) ==
            Scene(Message(TASK, 0, 0, Ready), Pending, map[])
  {
    assert "0" + ".png" == KEY;
    hide ScanStep, ImageStep, KEY, Row;
  }

  lemma Upload() returns (states: seq<State>, log: seq<Event>)
    ensures |states| == |log| + 1 && IsRun(states, log) && states[|log|] == Scene(Message(TASK, 0, 0, Ready), Pending, map[])
  {
    hide Step, Scene, Uploading;
    ReceivingSteps();
    StoringStep();
    CommittingStep();
    PublishingStep();
    states, log := [EMPTY], [];
    states, log := More(states, log, OfRequest(0, Receive("0", ".png", 0)));
    states, log := More(states, log, OfRequest(0, NoDuplicate));
    states, log := More(states, log, OfRequest(0, Store));
    states, log := More(states, log, OfRequest(0, CommitRows(0, 0)));
    states, log := More(states, log, OfRequest(0, PublishScan));
  }

  function Tag(n: nat): Delivery { Delivery(0, n + 1) }

  lemma TakeSteps(n: nat, status: Status)
    ensures Step(Scene(Message(TASK, n, n, Ready), status, map[]), OfScan(Tag(n), TakeScan)) ==
            Scene(Message(TASK, n, n + 1, Held), status, map[Tag(n) := Scan(TASK, 0, Uploads, Pending, Received)])
  {
    hide Waiting;
    assert Waiting([Message(TASK, n, n, Ready)], 0) by { WaitingHere(n); }
    hide KEY, TASK;
  }

  lemma WaitingHere(n: nat)
    ensures Waiting([Message(TASK, n, n, Ready)], 0)
  {
  }

  lemma CrashSteps(n: nat, x: Scan)
    requires n < DELIVERY_LIMIT
    ensures Step(Scene(Message(TASK, n, n + 1, Held), Pending, map[Tag(n) := x]), OfScan(Tag(n), CrashScan)) ==
            Scene(Message(TASK, n, n + 1, Held), Pending, map[])
    ensures Step(Scene(Message(TASK, n, n + 1, Held), Pending, map[]), LoseScan(Tag(n))) ==
            Scene(Message(TASK, n + 1, n + 1, Ready), Pending, map[])
  {
    assert map[Tag(n) := x] - {Tag(n)} == map[];
    hide KEY, TASK, ScanBody, ScanTail, Row;
  }

  /** A worker takes the task and dies, and the broker takes the task back. */
  lemma {:induction false} Bounce(n: nat) returns (states: seq<State>, log: seq<Event>)
    requires n <= DELIVERY_LIMIT
    ensures |states| == |log| + 1 && IsRun(states, log) && states[|log|] == Scene(Message(TASK, n, n, Ready), Pending, map[])
  {
    hide Step, Scene;
    if n == 0 {
      states, log := Upload();
    } else {
      states, log := Bounce(n - 1);
      TakeSteps(n - 1, Pending);
      CrashSteps(n - 1, Scan(TASK, 0, Uploads, Pending, Received));
      states, log := More(states, log, OfScan(Tag(n - 1), TakeScan));
      states, log := More(states, log, OfScan(Tag(n - 1), CrashScan));
      states, log := More(states, log, LoseScan(Tag(n - 1)));
    }
  }

  /** A running scan of delivery `n`. */
  function Nth(n: nat, status: Status, seen: Status, pc: ScanPc): State {
    Scene(Message(TASK, n, n + 1, Held), status, map[Tag(n) := Scan(TASK, 0, Uploads, seen, pc)])
  }

  lemma NthIs(n: nat)
    ensures Nth(n, Pending, Pending, Received) == Scene(Message(TASK, n, n + 1, Held), Pending, map[Tag(n) := Scan(TASK, 0, Uploads, Pending, Received)])
  {
  }

  lemma LoadingStep(n: nat)
    ensures Step(Nth(n, Pending, Pending, Received), OfScan(Tag(n), LoadJob)) == Nth(n, Pending, Pending, Loaded)
  {
    hide KEY, Row, JudgeStep, PassStep, QuarantineStep, ScanTail;
  }

  lemma MarkingStep(n: nat)
    ensures Step(Nth(n, Pending, Pending, Loaded), OfScan(Tag(n), MarkScanning)) == Nth(n, Scanning, Scanning, Marked)
  {
    hide KEY, Row, JudgeStep, PassStep, QuarantineStep, ScanTail;
  }

  lemma LocatingStep(n: nat)
    ensures Step(Nth(n, Scanning, Scanning, Marked), OfScan(Tag(n), Locate(0))) == Nth(n, Scanning, Scanning, Located)
  {
    assert Matches(map[0 := Row()], KEY) == {0};
    hide JudgeStep, PassStep, QuarantineStep, ScanTail, Matches;
  }

  lemma SpoolingStep(n: nat)
    ensures Step(Nth(n, Scanning, Scanning, Located), OfScan(Tag(n), Spool)) == Nth(n, Scanning, Scanning, Spooled)
  {
    hide KEY, Row, ReadStep, PassStep, QuarantineStep, ScanTail;
  }

  /** The scan of delivery `n` has just read the object. */
  lemma ReadUp(n: nat) returns (states: seq<State>, log: seq<Event>)
    requires n <= DELIVERY_LIMIT
    ensures |states| == |log| + 1 && |log| > 0 && IsRun(states, log)
    ensures states[|log|] == Nth(n, Scanning, Scanning, Spooled)
    ensures log[|log| - 1] == OfScan(Tag(n), Spool) && states[|log| - 1] == Nth(n, Scanning, Scanning, Located)
  {
    hide Step, Scene, Nth, IsRun, KEY;
    states, log := Bounce(n);
    TakeSteps(n, Pending);
    NthIs(n);
    LoadingStep(n);
    MarkingStep(n);
    LocatingStep(n);
    SpoolingStep(n);
    states, log := More(states, log, OfScan(Tag(n), TakeScan));
    states, log := More(states, log, OfScan(Tag(n), LoadJob));
    states, log := More(states, log, OfScan(Tag(n), MarkScanning));
    states, log := More(states, log, OfScan(Tag(n), Locate(0)));
    states, log := More(states, log, OfScan(Tag(n), Spool));
  }

  lemma DroppingStep(n: nat)
    ensures Step(Nth(n, Scanning, Scanning, Spooled), OfScan(Tag(n), Throw(ConnectionDropped))) == Nth(n, Scanning, Scanning, Raised(ConnectionDropped))
  {
    hide KEY, Row, ReadStep, JudgeStep, QuarantineStep, ScanTail;
  }

  lemma RescuingStep(n: nat)
    ensures Step(Nth(n, Scanning, Scanning, Raised(ConnectionDropped)), OfScan(Tag(n), Rescue(true))) ==
            Nth(n, QueuedForRetry, QueuedForRetry, Failing(ConnectionDropped))
  {
    hide KEY, Row, ScanBody, SettleStep;
  }

  lemma ReportingStep(n: nat)
    ensures Step(Nth(n, QueuedForRetry, QueuedForRetry, Failing(ConnectionDropped)), OfScan(Tag(n), ScanAction.Report)) ==
            Nth(n, QueuedForRetry, QueuedForRetry, Reported(SaysQueued))
  {
    hide KEY, Row, ScanBody, SettleStep;
  }

  lemma ReturningStep()
    ensures Step(Nth(3, QueuedForRetry, QueuedForRetry, Reported(SaysQueued)), OfScan(Tag(3), GiveBack)) ==
            Scene(Message(TASK, 4, 4, Dead), QueuedForRetry, map[])
  {
    var x := Scan(TASK, 0, Uploads, QueuedForRetry, Reported(SaysQueued));
    assert map[Tag(3) := x] - {Tag(3)} == map[];
    hide KEY, Row, ScanBody, HandleStep;
  }

  lemma EndIs()
    ensures var s, d := Nth(3, QueuedForRetry, QueuedForRetry, Reported(SaysQueued)), Tag(3);
      d in s.scans && s.scans[d].pc == Reported(SaysQueued) && Current(s.scanQueue, d.msg, d.tag)
    ensures var s := Scene(Message(TASK, 4, 4, Dead), QueuedForRetry, map[]); |s.scanQueue| == 1 && s.scanQueue[0].place == Dead
  {
  }

  /** Three workers die; the fourth delivery finds clamd gone, says that the task is queued for
      a retry, and gives it back; the broker dead-letters it. */
  lemma FalseReport() returns (states: seq<State>, log: seq<Event>, m: nat, d: Delivery)
    ensures |states| == |log| + 1 && IsRun(states, log) && m < |log|
    ensures d in states[m].scans && states[m].scans[d].pc == Reported(SaysQueued) && Current(states[m].scanQueue, d.msg, d.tag)
    ensures d.msg < |states[m + 1].scanQueue| && states[m + 1].scanQueue[d.msg].place == Dead
  {
    hide Step, Scene, Nth, IsRun, KEY;
    states, log := ReadUp(3);
    DroppingStep(3);
    RescuingStep(3);
    ReportingStep(3);
    ReturningStep();
    EndIs();
    d := Tag(3);
    states, log := More(states, log, OfScan(d, Throw(ConnectionDropped)));
    states, log := More(states, log, OfScan(d, Rescue(true)));
    states, log := More(states, log, OfScan(d, ScanAction.Report));
    m := |log|;
    var last := states[m];
    var more;
    more, log := More(states, log, OfScan(d, GiveBack));
    assert more[m] == last;
    states := more;
  }
}
