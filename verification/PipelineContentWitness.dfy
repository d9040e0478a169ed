/** Two uploads with one digest: between the scan of the first and its rendering, the second
    replaces the object, and what is rendered is not what was scanned. */
module PipelineContentWitness {
  import opened Wrappers
  import opened Broker
  import opened Keys
  import opened Pipeline
  import opened PipelineContent
  import opened PipelineWitness

  /** The scan of the first delivery after its verdict. */
  function Passed(status: Status, pc: ScanPc): State {
    Nth(0, status, status, pc).(cleared := {0})
  }

  lemma JudgingStep()
    ensures Step(Nth(0, Scanning, Scanning, Spooled), OfScan(Tag(0), Judge(Ok))) == Passed(Scanning, Judged(Ok))
  {
    hide KEY, Row, ReadStep, PassStep, QuarantineStep, ScanTail;
  }

  lemma RecordingStep()
    ensures Step(Passed(Scanning, Judged(Ok)), OfScan(Tag(0), Record)) == Passed(Clean, Recorded(Ok))
  {
    hide KEY, Row, ReadStep, PassStep, QuarantineStep, ScanTail;
  }

  /** The image task under way, and the requests that run. */
  function Imaging(status: Status, m: Message<ImageTask>, images: map<Delivery, ImageRun>, requests: map<nat, Request>): State {
    Passed(Clean, Forwarded).(jobs := map[0 := JobRow(0, status)], imageQueue := [m], images := images, requests := requests)
  }

  function First(): map<nat, Request> { map[0 := Request("0", ".png", 0, Announced)] }

  function Both(pc: RequestPc): map<nat, Request> { First()[1 := Request("0", ".png", 1, pc)] }

  function Held1(): Message<ImageTask> { Message(ImageTask(TASK, Tag(0)), 0, 1, Held) }

  function OneImage(id: string, seen: Status, pc: ImagePc): map<Delivery, ImageRun> {
    map[Tag(0) := ImageRun(TASK, 0, id, Uploads, seen, pc)]
  }

  lemma ForwardingStep()
    ensures Step(Passed(Clean, Recorded(Ok)), OfScan(Tag(0), Forward)) ==
            Imaging(Clean, Message(ImageTask(TASK, Tag(0)), 0, 0, Ready), map[], First())
  {
    hide KEY, ReadStep, JudgeStep, QuarantineStep, ScanTail;
  }

  lemma TakingStep()
    ensures Step(Imaging(Clean, Message(ImageTask(TASK, Tag(0)), 0, 0, Ready), map[], First()), OfImage(Tag(0), TakeImage)) ==
            Imaging(Clean, Held1(), OneImage("", Pending, Arrived), First())
  {
    hide KEY, Row, TASK, ImageBody, ImageTail;
  }

  lemma OpeningStep()
    ensures Step(Imaging(Clean, Held1(), OneImage("", Pending, Arrived), First()), OfImage(Tag(0), Open)) ==
            Imaging(Clean, Held1(), OneImage("0", Clean, Opened), First())
  {
    assert Stem(KEY) == "0" by { StemOfKey("0", ".png"); assert "0" + ".png" == KEY; }
    hide KEY, Stem, ImageTail;
  }

  lemma ProcessingStep()
    ensures Step(Imaging(Clean, Held1(), OneImage("0", Clean, Opened), First()), OfImage(Tag(0), MarkProcessing)) ==
            Imaging(Processing, Held1(), OneImage("0", Processing, Working), First())
  {
    hide KEY, Row, ImageTail;
  }

  function Ready2(requests: map<nat, Request>): State {
    Imaging(Processing, Held1(), OneImage("0", Processing, Working), requests)
  }

  lemma SecondArrives()
    ensures Step(Ready2(First()), OfRequest(1, Receive("0", ".png", 1))) == Ready2(Both(Hashed))
  {
    hide Row, TASK, Held1, OneImage, ScanStep, ImageStep;
    assert WellFormed("0", ".png");
    hide KEY, WellFormed;
  }

  /** The other developer has no job for that digest. */
  lemma SecondIsNew()
    ensures Step(Ready2(Both(Hashed)), OfRequest(1, NoDuplicate)) == Ready2(Both(Checked))
  {
    hide TASK, Held1, OneImage, ScanStep, ImageStep;
    var s := Ready2(Both(Hashed));
    assert EarlierJobs(s.jobs, s.files, "0", 1) == {};
    hide KEY, EarlierJobs, Row;
  }

  lemma SecondStores()
    ensures Step(Ready2(Both(Checked)), OfRequest(1, Store)) == Ready2(Both(Stored))
    ensures Stores(Ready2(Both(Checked)), OfRequest(1, Store), KEY)
    ensures Fetches(Ready2(Both(Stored)), OfImage(Tag(0), Fetch), Tag(0), TASK)
  {
    assert "0" + ".png" == KEY;
    assert {KEY} + {KEY} == {KEY};
    hide KEY, Row, ScanStep, ImageStep;
  }

  /** When each event writes its own number, the content before event `n` is below `n`. */
  lemma {:induction false} NumbersAreOld(states: seq<State>, log: seq<Event>, bytes: seq<int>, key: Key, n: nat)
    requires |states| == |log| + 1 && n <= |log| && bytes == seq(|log|, (k: int) => k)
    ensures var c := ContentAt(states, log, bytes, key, n); c.Some? ==> c.value < n
  {
    hide Stores;
    if n > 0 { NumbersAreOld(states, log, bytes, key, n - 1); }
  }

  lemma ReadingWas()
    ensures Spools(Nth(0, Scanning, Scanning, Located), OfScan(Tag(0), Spool), Tag(0), TASK)
    ensures Passes(Nth(0, Scanning, Scanning, Spooled), OfScan(Tag(0), Judge(Ok)), Tag(0), TASK)
  {
  }

  lemma Overtaken() returns (states: seq<State>, log: seq<Event>, i: nat)
    ensures |states| == |log| + 1 && i + 1 < |log| && IsRun(states, log)
    ensures Spools(states[i], log[i], Tag(0), TASK) && Passes(states[i + 1], log[i + 1], Tag(0), TASK)
    ensures i + 1 < |log| - 1 && Stores(states[|log| - 1], log[|log| - 1], KEY)
    ensures states[|log|] == Ready2(Both(Stored))
  {
    hide Step, Nth, Passed, Imaging, Ready2, IsRun, KEY, Spools, Passes, Stores, Fetches;
    states, log := ReadUp(0);
    i := |log| - 1;
    ReadingWas();
    JudgingStep();
    RecordingStep();
    ForwardingStep();
    TakingStep();
    OpeningStep();
    ProcessingStep();
    ReadyIs();
    SecondArrives();
    SecondIsNew();
    SecondStores();
    states, log := More(states, log, OfScan(Tag(0), Judge(Ok)));
    states, log := More(states, log, OfScan(Tag(0), Record));
    states, log := More(states, log, OfScan(Tag(0), Forward));
    states, log := More(states, log, OfImage(Tag(0), TakeImage));
    states, log := More(states, log, OfImage(Tag(0), Open));
    states, log := More(states, log, OfImage(Tag(0), MarkProcessing));
    states, log := More(states, log, OfRequest(1, Receive("0", ".png", 1)));
    states, log := More(states, log, OfRequest(1, NoDuplicate));
    states, log := More(states, log, OfRequest(1, Store));
  }

  lemma ReadyIs()
    ensures Ready2(First()) == Imaging(Processing, Held1(), OneImage("0", Processing, Working), First())
  {
  }

  /** There is a run in which the image worker reads, for a task, other content than the scan
      that answered OK for it. */
  lemma RenderedUnscanned() returns (states: seq<State>, log: seq<Event>, bytes: seq<int>, i: nat, j: nat, f: nat, d: Delivery, t: Task)
    ensures IsRun(states, log) && |bytes| == |log| && j < f < |log|
    ensures Vets(states, log, i, j, d, t) && Fetches(states[f], log[f], d, t)
    ensures ContentAt(states, log, bytes, t.key, i).Some?
    ensures ContentAt(states, log, bytes, t.key, f) != ContentAt(states, log, bytes, t.key, i)
  {
    hide Step, Ready2, IsRun, KEY, TASK, Spools, Passes, Stores, Fetches;
    states, log, i := Overtaken();
    SecondStores();
    NamesKey();
    j, f := i + 1, |log|;
    var prefix := states;
    states, log := More(states, log, OfImage(Tag(0), Fetch));
    d, t := Tag(0), TASK;
    bytes := seq(|log|, (k: int) => k);
    assert states[i] == prefix[i] && states[j] == prefix[j] && states[f] == prefix[f] && states[f - 1] == prefix[f - 1];
    assert ContentAt(states, log, bytes, t.key, f) == Some(f - 1);
    NumbersAreOld(states, log, bytes, t.key, i);
    SpoolsInBucket(states[i], log[i], d, t);
    ObjectsHaveContent(states, log, bytes, t.key, i);
    var c, c' := ContentAt(states, log, bytes, t.key, i), ContentAt(states, log, bytes, t.key, f);
    assert c.value < i && c'.value == f - 1;
  }

  lemma NamesKey()
    ensures TASK.key == KEY
  {
  }

  lemma SpoolsInBucket(s: State, e: Event, d: Delivery, t: Task)
    requires Spools(s, e, d, t)
    ensures t.key in s.uploads
  {
  }
}
