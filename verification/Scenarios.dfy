/** Concrete runs of one job: the situations that the theorems speak about do occur. */
module Scenarios {
  import opened Options
  import opened Database
  import opened KaggleRefs
  import opened JobProtocol
  import opened JobOutcomes

  /** Runs the actions one after another; None if one of them is not enabled. */
  function Drive(s: JobState, actions: seq<Action>, remote: Remote): Option<JobState>
    decreases |actions|
  {
    if actions == [] then Some(s)
    else if Enabled(s, actions[0], remote) then Drive(Step(s, actions[0], remote), actions[1..], remote)
    else None
  }

  const START: seq<Action> := [Intake(StartAssembly), Intake(AssemblyDone(7, [])), Server(Dequeue(ProcessItem, 0))]

  const UPLOAD: seq<Action> := [Run(0, Acquire(None)), Run(0, Prepare), Run(0, StartUpload(0, 1))]

  const CALL: seq<Action> := [Upload(0, Rename), Upload(0, SyncIntent), Upload(0, RemoteCall)]

  const LOSE: seq<Action> := [Run(0, GiveUpUpload), Err(0, Handle(true, false)), Err(0, Retain)]

  function Starter(ref: string): JobState {
    JobState(Row(Queued, false, 15, NoError, NoRecheck, false, false, ref, 0), true,
             map[0 := Thread(Process, Begin)], multiset{}, map[], map[], map[], [], 7, false, false, [], [], false)
  }

  function Uploader(ref: string): JobState {
    Starter(ref).(row := Row(UploadingDataset, false, 20, NoError, NoRecheck, false, false, ref, 0),
                  threads := map[0 := Thread(Process, AwaitUpload(0))], children := map[0 := Child(Receipt(1, 7), Checked)])
  }

  function InAssembly(ref: string): JobState {
    Created(ref, false, 0).(row := Row(Assembling, false, 10, NoError, NoRecheck, false, false, ref, 0), assembly := true)
  }

  function Assembled(ref: string): JobState {
    Starter(ref).(active := false, threads := map[], queue := multiset{ProcessItem})
  }

  lemma Starts(ref: string, remote: Remote)
    ensures Drive(Created(ref, false, 0), START, remote) == Some(Starter(ref))
  {
    hide Enabled, Step, Created, Starter, InAssembly, Assembled;
    Start1(ref, remote);
    Start2(ref, remote);
    Start3(ref, remote);
    DriveFirst(Created(ref, false, 0), START, InAssembly(ref), remote);
    DriveFirst(InAssembly(ref), START[1..], Assembled(ref), remote);
    DriveFirst(Assembled(ref), START[2..], Starter(ref), remote);
    assert START[1..][1..] == START[2..] && START[2..][1..] == [];
  }

  lemma Start1(ref: string, remote: Remote)
    ensures Steps(Created(ref, false, 0), Intake(StartAssembly), InAssembly(ref), remote)
  {
  }

  lemma Start2(ref: string, remote: Remote)
    ensures Steps(InAssembly(ref), Intake(AssemblyDone(7, [])), Assembled(ref), remote)
  {
    assert multiset{} + multiset{ProcessItem} == multiset{ProcessItem};
  }

  lemma Start3(ref: string, remote: Remote)
    ensures Steps(Assembled(ref), Server(Dequeue(ProcessItem, 0)), Starter(ref), remote)
  {
    assert map[][0 := Thread(Process, Begin)] == map[0 := Thread(Process, Begin)];
    assert multiset{ProcessItem} - multiset{ProcessItem} == multiset{};
  }

  lemma DriveFirst(s: JobState, actions: seq<Action>, t: JobState, remote: Remote)
    requires actions != [] && Enabled(s, actions[0], remote) && Step(s, actions[0], remote) == t
    ensures Drive(s, actions, remote) == Drive(t, actions[1..], remote)
  {
    hide Enabled, Step;
  }

  lemma Uploads(ref: string, remote: Remote)
    ensures Drive(Starter(ref), UPLOAD, remote) == Some(Uploader(ref))
  {
    hide Enabled, Step, Starter, Uploader;
    Acquires(ref, remote);
    Prepares(ref, remote);
    StartsChild(ref, remote);
    DriveFirst(Starter(ref), UPLOAD, Acquired(ref), remote);
    DriveFirst(Acquired(ref), UPLOAD[1..], Preparing(ref), remote);
    DriveFirst(Preparing(ref), UPLOAD[2..], Uploader(ref), remote);
    assert UPLOAD[1..][1..] == UPLOAD[2..] && UPLOAD[2..][1..] == [];
  }

  function Acquired(ref: string): JobState {
    Starter(ref).(threads := map[0 := Thread(Process, Prepared(None))])
  }

  function Preparing(ref: string): JobState {
    Starter(ref).(row := Row(UploadingDataset, false, 20, NoError, NoRecheck, false, false, ref, 0), threads := map[0 := Thread(Process, Uploading)])
  }

  lemma Acquires(ref: string, remote: Remote)
    ensures var a := Run(0, Acquire(None)); Enabled(Starter(ref), a, remote) && Step(Starter(ref), a, remote) == Acquired(ref)
  {
    hide RefSlug;
    assert Rewritten([], ref) == [];
    assert Step(Starter(ref), Run(0, Acquire(None)), remote).threads == Acquired(ref).threads;
  }

  lemma Prepares(ref: string, remote: Remote)
    ensures var a := Run(0, Prepare); Enabled(Acquired(ref), a, remote) && Step(Acquired(ref), a, remote) == Preparing(ref)
  {
    assert Step(Acquired(ref), Run(0, Prepare), remote).threads == Preparing(ref).threads;
  }

  lemma StartsChild(ref: string, remote: Remote)
    ensures var a := Run(0, StartUpload(0, 1)); Enabled(Preparing(ref), a, remote) && Step(Preparing(ref), a, remote) == Uploader(ref)
  {
    assert Step(Preparing(ref), Run(0, StartUpload(0, 1)), remote).threads == Uploader(ref).threads;
  }

  function Unanswered(ref: string): JobState {
    Uploader(ref).(view := map[ref := Intent(1, 7, Unknown)], disk := map[ref := Intent(1, 7, Unknown)],
                   calls := [Call(ref, Receipt(1, 7))], children := map[0 := Child(Receipt(1, 7), Called)])
  }

  lemma Calls(ref: string, remote: Remote)
    ensures Drive(Uploader(ref), CALL, remote) == Some(Unanswered(ref))
  {
    var r := Drive(Uploader(ref), CALL, remote);
    var u := Unanswered(ref);
    assert r.Some? && r.value.calls == u.calls && r.value.view == u.view && r.value.disk == u.disk && r.value.children == u.children;
  }

  /** The worker gave up waiting for its upload. */
  function GivenUp(ref: string, pc: Pc): JobState {
    Unanswered(ref).(children := map[], threads := map[0 := Thread(Process, pc)])
  }

  lemma GivesUp(ref: string, remote: Remote)
    ensures Steps(Unanswered(ref), Run(0, GiveUpUpload), GivenUp(ref, Raised), remote)
  {
    assert Step(Unanswered(ref), Run(0, GiveUpUpload), remote).children == map[];
    assert map[0 := Thread(Process, AwaitUpload(0))][0 := Thread(Process, Raised)] == map[0 := Thread(Process, Raised)];
  }

  lemma Handles(ref: string, remote: Remote)
    ensures Steps(GivenUp(ref, Raised), Err(0, Handle(true, false)), GivenUp(ref, RetainWrite), remote)
  {
    assert map[0 := Thread(Process, Raised)][0 := Thread(Process, RetainWrite)] == map[0 := Thread(Process, RetainWrite)];
  }

  /** The retained candidate is recorded; the recheck is not planned yet. */
  function Retained(ref: string): JobState {
    GivenUp(ref, RetainSchedule).(row := Row(WaitingDataset, false, 20, RetainedCandidate, NoRecheck, false, false, ref, 0))
  }

  lemma Retains(ref: string, remote: Remote)
    ensures Steps(GivenUp(ref, RetainWrite), Err(0, Retain), Retained(ref), remote)
  {
    assert map[0 := Thread(Process, RetainWrite)][0 := Thread(Process, RetainSchedule)] == map[0 := Thread(Process, RetainSchedule)];
  }

  lemma Loses(ref: string, remote: Remote)
    ensures Drive(Unanswered(ref), LOSE, remote) == Some(Retained(ref))
  {
    hide Enabled, Step, Unanswered, GivenUp, Retained;
    GivesUp(ref, remote);
    Handles(ref, remote);
    Retains(ref, remote);
    DriveFirst(Unanswered(ref), LOSE, GivenUp(ref, Raised), remote);
    DriveFirst(GivenUp(ref, Raised), LOSE[1..], GivenUp(ref, RetainWrite), remote);
    DriveFirst(GivenUp(ref, RetainWrite), LOSE[2..], Retained(ref), remote);
    assert LOSE[1..][1..] == LOSE[2..] && LOSE[2..][1..] == [];
  }

  lemma CallsFirst(ref: string, remote: Remote)
    ensures Drive(Created(ref, false, 0), START + UPLOAD + CALL, remote) == Some(Unanswered(ref))
  {
    hide Drive, Starter, Uploader, Unanswered, Created;
    Starts(ref, remote);
    Uploads(ref, remote);
    Calls(ref, remote);
    DriveAppend(Created(ref, false, 0), START, UPLOAD, remote);
    DriveAppend(Created(ref, false, 0), START + UPLOAD, CALL, remote);
  }

  lemma RetainedIsFamily(ref: string)
    ensures var r := Retained(ref);
      && 0 in r.threads && r.threads[0].pc.RetainSchedule? && r.queue == multiset{}
      && ServerEnabled(r, ManualRecheck(false)) && !r.row.cancelRequested
  {
  }

  /** The family is reachable from a new job: a first upload whose response is lost leads there. */
  lemma LostResponseLeadsThere(ref: string, remote: Remote)
    ensures var r := Drive(Created(ref, false, 0), START + UPLOAD + CALL + LOSE, remote);
      && r.Some? && 0 in r.value.threads && r.value.threads[0].pc.RetainSchedule? && r.value.queue == multiset{}
      && ServerEnabled(r.value, ManualRecheck(false)) && !r.value.row.cancelRequested
  {
    hide Drive, ServerEnabled, Unanswered, Retained, Created;
    CallsFirst(ref, remote);
    Loses(ref, remote);
    DriveAppend(Created(ref, false, 0), START + UPLOAD + CALL, LOSE, remote);
    RetainedIsFamily(ref);
  }

  // ---- a lost response, a power failure, and the way to the result ----

  const RECOVER: seq<Action> := [
    Crash(PowerFailure), Recover(Observed(NotFound, false, true, false, 0, 0, [])), Server(Dequeue(ProcessItem, 1))]

  const REUSE: seq<Action> := [Run(1, Acquire(None)), Run(1, Prepare), Run(1, ReuseIntent), Run(1, AfterUpload)]

  const VERIFY: seq<Action> := [Run(1, VerifyBytes), Run(1, RecordVerified), Run(1, PinVersion)]

  const PUSH: seq<Action> := [Run(1, Submit), Run(1, PushCall(false))]

  const WATCH: seq<Action> := [Monitor(1, ReadRow(WaitingKernel, 60)), Monitor(1, WriteRow)]

  const DOWNLOAD: seq<Action> := [Monitor(1, ReadRow(DownloadingOutput, 85)), Monitor(1, WriteRow)]

  const DELIVER: seq<Action> := [Monitor(1, Deliver)]

  function RowAt(ref: string, status: Status, progress: int): Row {
    Row(status, false, progress, NoError, NoRecheck, false, false, ref, 0)
  }

  /** The job of a second worker after the power failure, with the retained unknown intent. */
  function Second(ref: string, row: Row, pc: Pc): JobState {
    JobState(row, true, map[1 := Thread(Process, pc)], multiset{}, map[ref := Intent(1, 7, Unknown)], map[ref := Intent(1, 7, Unknown)],
             map[], [], 7, false, false, [Call(ref, Receipt(1, 7))], [], false)
  }

  function Pushed(ref: string, row: Row, pc: Pc): JobState {
    Second(ref, row, pc).(entered := true, pushes := [PushRecord(ref, Receipt(1, 7), [], Some(Intent(1, 7, Unknown)))])
  }

  /** After the power failure only the row and the durable intent are left. */
  function Crashed(ref: string): JobState {
    Second(ref, RowAt(ref, UploadingDataset, 20), Begin).(active := false, threads := map[], recovering := true)
  }

  function Waiting(ref: string): JobState {
    Second(ref, RowAt(ref, Queued, 20), Begin).(active := false, threads := map[], queue := multiset{ProcessItem})
  }

  lemma Recovers(ref: string, remote: Remote)
    ensures Drive(Unanswered(ref), RECOVER, remote) == Some(Second(ref, RowAt(ref, Queued, 20), Begin))
  {
    hide Enabled, Step, Second, Unanswered, Crashed, Waiting;
    Recover1(ref, remote);
    Recover2(ref, remote);
    Recover3(ref, remote);
    DriveFirst(Unanswered(ref), RECOVER, Crashed(ref), remote);
    DriveFirst(Crashed(ref), RECOVER[1..], Waiting(ref), remote);
    DriveFirst(Waiting(ref), RECOVER[2..], Second(ref, RowAt(ref, Queued, 20), Begin), remote);
    assert RECOVER[1..][1..] == RECOVER[2..] && RECOVER[2..][1..] == [];
  }

  lemma Recover1(ref: string, remote: Remote)
    ensures Steps(Unanswered(ref), Crash(PowerFailure), Crashed(ref), remote)
  {
  }

  lemma Recover2(ref: string, remote: Remote)
    ensures Steps(Crashed(ref), Recover(Observed(NotFound, false, true, false, 0, 0, [])), Waiting(ref), remote)
  {
    assert multiset{} + multiset{ProcessItem} == multiset{ProcessItem};
  }

  lemma Recover3(ref: string, remote: Remote)
    ensures Steps(Waiting(ref), Server(Dequeue(ProcessItem, 1)), Second(ref, RowAt(ref, Queued, 20), Begin), remote)
  {
    assert map[][1 := Thread(Process, Begin)] == map[1 := Thread(Process, Begin)];
    assert multiset{ProcessItem} - multiset{ProcessItem} == multiset{};
  }

  lemma Reuses(ref: string, remote: Remote)
    ensures Drive(Second(ref, RowAt(ref, Queued, 20), Begin), REUSE, remote) == Some(Second(ref, RowAt(ref, WaitingDataset, 35), Verify(Receipt(1, 7))))
  {
    hide Enabled, Step, Second;
    var s0, s1 := Second(ref, RowAt(ref, Queued, 20), Begin), Second(ref, RowAt(ref, Queued, 20), Prepared(None));
    var s2, s3 := Second(ref, RowAt(ref, UploadingDataset, 20), Uploading), Second(ref, RowAt(ref, UploadingDataset, 20), Uploaded(Receipt(1, 7)));
    Reuse1(ref, remote);
    Reuse2(ref, remote);
    Reuse3(ref, remote);
    Reuse4(ref, remote);
    DriveFirst(s0, REUSE, s1, remote);
    DriveFirst(s1, REUSE[1..], s2, remote);
    DriveFirst(s2, REUSE[2..], s3, remote);
    DriveFirst(s3, REUSE[3..], Second(ref, RowAt(ref, WaitingDataset, 35), Verify(Receipt(1, 7))), remote);
    assert REUSE[1..][1..] == REUSE[2..] && REUSE[2..][1..] == REUSE[3..] && REUSE[3..][1..] == [];
  }

  predicate Steps(s: JobState, a: Action, t: JobState, remote: Remote) {
    Enabled(s, a, remote) && Step(s, a, remote) == t
  }

  lemma Reuse1(ref: string, remote: Remote)
    ensures Steps(Second(ref, RowAt(ref, Queued, 20), Begin), Run(1, Acquire(None)), Second(ref, RowAt(ref, Queued, 20), Prepared(None)), remote)
  {
    hide RefSlug;
    assert Rewritten([], ref) == [];
    Threads1(ref, RowAt(ref, Queued, 20), Begin, Prepared(None));
  }

  lemma Threads1(ref: string, row: Row, pc: Pc, next: Pc)
    ensures At(Second(ref, row, pc), 1, next) == Second(ref, row, next)
  {
    assert map[1 := Thread(Process, pc)][1 := Thread(Process, next)] == map[1 := Thread(Process, next)];
  }

  lemma Reuse2(ref: string, remote: Remote)
    ensures Steps(Second(ref, RowAt(ref, Queued, 20), Prepared(None)), Run(1, Prepare), Second(ref, RowAt(ref, UploadingDataset, 20), Uploading), remote)
  {
    Threads1(ref, RowAt(ref, UploadingDataset, 20), Prepared(None), Uploading);
  }

  lemma Reuse3(ref: string, remote: Remote)
    ensures Steps(Second(ref, RowAt(ref, UploadingDataset, 20), Uploading), Run(1, ReuseIntent),
                  Second(ref, RowAt(ref, UploadingDataset, 20), Uploaded(Receipt(1, 7))), remote)
  {
    Threads1(ref, RowAt(ref, UploadingDataset, 20), Uploading, Uploaded(Receipt(1, 7)));
  }

  lemma Reuse4(ref: string, remote: Remote)
    ensures Steps(Second(ref, RowAt(ref, UploadingDataset, 20), Uploaded(Receipt(1, 7))), Run(1, AfterUpload),
                  Second(ref, RowAt(ref, WaitingDataset, 35), Verify(Receipt(1, 7))), remote)
  {
    Threads1(ref, RowAt(ref, WaitingDataset, 35), Uploaded(Receipt(1, 7)), Verify(Receipt(1, 7)));
  }

  lemma VerifiesIt(ref: string, remote: Remote)
    requires Serves(remote, ref, Receipt(1, 7))
    ensures Drive(Second(ref, RowAt(ref, WaitingDataset, 35), Verify(Receipt(1, 7))), VERIFY, remote)
         == Some(Second(ref, RowAt(ref, WaitingDataset, 40), Ready(Receipt(1, 7))))
  {
    hide Enabled, Step, Second;
    var r := Receipt(1, 7);
    var s1, s2 := Second(ref, RowAt(ref, WaitingDataset, 35), Record(r)), Second(ref, RowAt(ref, WaitingDataset, 40), Pin(r));
    Verify1(ref, remote);
    Verify2(ref, remote);
    Verify3(ref, remote);
    DriveFirst(Second(ref, RowAt(ref, WaitingDataset, 35), Verify(r)), VERIFY, s1, remote);
    DriveFirst(s1, VERIFY[1..], s2, remote);
    DriveFirst(s2, VERIFY[2..], Second(ref, RowAt(ref, WaitingDataset, 40), Ready(r)), remote);
    assert VERIFY[1..][1..] == VERIFY[2..] && VERIFY[2..][1..] == [];
  }

  lemma Verify1(ref: string, remote: Remote)
    requires Serves(remote, ref, Receipt(1, 7))
    ensures Steps(Second(ref, RowAt(ref, WaitingDataset, 35), Verify(Receipt(1, 7))), Run(1, VerifyBytes),
                  Second(ref, RowAt(ref, WaitingDataset, 35), Record(Receipt(1, 7))), remote)
  {
    Threads1(ref, RowAt(ref, WaitingDataset, 35), Verify(Receipt(1, 7)), Record(Receipt(1, 7)));
  }

  lemma Verify2(ref: string, remote: Remote)
    ensures Steps(Second(ref, RowAt(ref, WaitingDataset, 35), Record(Receipt(1, 7))), Run(1, RecordVerified),
                  Second(ref, RowAt(ref, WaitingDataset, 40), Pin(Receipt(1, 7))), remote)
  {
    Threads1(ref, RowAt(ref, WaitingDataset, 40), Record(Receipt(1, 7)), Pin(Receipt(1, 7)));
  }

  lemma Verify3(ref: string, remote: Remote)
    ensures Steps(Second(ref, RowAt(ref, WaitingDataset, 40), Pin(Receipt(1, 7))), Run(1, PinVersion),
                  Second(ref, RowAt(ref, WaitingDataset, 40), Ready(Receipt(1, 7))), remote)
  {
    hide RefSlug, Versioned;
    assert Pinned([], ref, 1) == [];
    Threads1(ref, RowAt(ref, WaitingDataset, 40), Pin(Receipt(1, 7)), Ready(Receipt(1, 7)));
  }

  function Pushing(ref: string): JobState {
    Second(ref, RowAt(ref, PushingKernel, 45), Push(Receipt(1, 7))).(entered := true)
  }

  lemma Pushes(ref: string, remote: Remote)
    ensures Drive(Second(ref, RowAt(ref, WaitingDataset, 40), Ready(Receipt(1, 7))), PUSH, remote)
         == Some(Pushed(ref, RowAt(ref, PushingKernel, 45), Finish(Complete, 0)))
  {
    hide Enabled, Step, Second, Pushing, Pushed;
    Push1(ref, remote);
    Push2(ref, remote);
    DriveFirst(Second(ref, RowAt(ref, WaitingDataset, 40), Ready(Receipt(1, 7))), PUSH, Pushing(ref), remote);
    DriveFirst(Pushing(ref), PUSH[1..], Pushed(ref, RowAt(ref, PushingKernel, 45), Finish(Complete, 0)), remote);
    assert PUSH[1..][1..] == [];
  }

  lemma Push1(ref: string, remote: Remote)
    ensures Steps(Second(ref, RowAt(ref, WaitingDataset, 40), Ready(Receipt(1, 7))), Run(1, Submit), Pushing(ref), remote)
  {
    Threads1(ref, RowAt(ref, PushingKernel, 45), Ready(Receipt(1, 7)), Push(Receipt(1, 7)));
  }

  lemma Push2(ref: string, remote: Remote)
    ensures Steps(Pushing(ref), Run(1, PushCall(false)), Pushed(ref, RowAt(ref, PushingKernel, 45), Finish(Complete, 0)), remote)
  {
    var t := Step(Pushing(ref), Run(1, PushCall(false)), remote);
    assert t.threads == map[1 := Thread(Process, Finish(Complete, 0))];
    assert t.pushes == [PushRecord(ref, Receipt(1, 7), [], Some(Intent(1, 7, Unknown)))];
  }

  lemma Watches(ref: string, remote: Remote)
    ensures Drive(Pushed(ref, RowAt(ref, PushingKernel, 45), Finish(Complete, 0)), WATCH, remote)
         == Some(Pushed(ref, RowAt(ref, WaitingKernel, 60), Finish(Complete, 1)))
  {
    var r := Drive(Pushed(ref, RowAt(ref, PushingKernel, 45), Finish(Complete, 0)), WATCH, remote);
    assert r.Some? && r.value.threads == map[1 := Thread(Process, Finish(Complete, 1))];
  }

  lemma Downloads(ref: string, remote: Remote)
    ensures Drive(Pushed(ref, RowAt(ref, WaitingKernel, 60), Finish(Complete, 1)), DOWNLOAD, remote)
         == Some(Pushed(ref, RowAt(ref, DownloadingOutput, 85), Finish(Complete, 2)))
  {
    var r := Drive(Pushed(ref, RowAt(ref, WaitingKernel, 60), Finish(Complete, 1)), DOWNLOAD, remote);
    assert r.Some? && r.value.threads == map[1 := Thread(Process, Finish(Complete, 2))];
  }

  lemma Delivers(ref: string, remote: Remote)
    ensures var r := Drive(Pushed(ref, RowAt(ref, DownloadingOutput, 85), Finish(Complete, 2)), DELIVER, remote);
      r.Some? && r.value.row == RowAt(ref, Complete, 100) && r.value.threads == map[] && |r.value.calls| == 1 && |r.value.pushes| == 1
  {
  }

  lemma {:induction false} DriveAppend(s: JobState, first: seq<Action>, rest: seq<Action>, remote: Remote)
    requires Drive(s, first, remote).Some?
    ensures Drive(s, first + rest, remote) == Drive(Drive(s, first, remote).value, rest, remote)
    decreases |first|
  {
    hide Enabled, Step;
    if first == [] {
      assert first + rest == rest;
    } else {
      assert (first + rest)[1..] == first[1..] + rest;
      DriveAppend(Step(s, first[0], remote), first[1..], rest, remote);
    }
  }

  /** A job whose upload response was lost in a power failure reaches its result: the restart keeps the candidate, its
      bytes are verified, the kernel is pushed once, and no second upload is made. */
  lemma LostUploadCompletes(ref: string, remote: Remote)
    requires Serves(remote, ref, Receipt(1, 7))
    ensures var r := Drive(Created(ref, false, 0), START + UPLOAD + CALL + (RECOVER + REUSE + VERIFY + PUSH + WATCH + DOWNLOAD + DELIVER), remote);
      && r.Some? && r.value.row.status.Complete? && r.value.threads == map[]
      && |r.value.calls| == 1 && |r.value.pushes| == 1
  {
    hide Drive, Unanswered, Second, Pushed, Serves, Created;
    var s := Unanswered(ref);
    CallsFirst(ref, remote);
    DriveAppend(Created(ref, false, 0), START + UPLOAD + CALL, RECOVER + REUSE + VERIFY + PUSH + WATCH + DOWNLOAD + DELIVER, remote);
    Recovers(ref, remote);
    Reuses(ref, remote);
    DriveAppend(s, RECOVER, REUSE, remote);
    VerifiesIt(ref, remote);
    DriveAppend(s, RECOVER + REUSE, VERIFY, remote);
    Pushes(ref, remote);
    DriveAppend(s, RECOVER + REUSE + VERIFY, PUSH, remote);
    Watches(ref, remote);
    DriveAppend(s, RECOVER + REUSE + VERIFY + PUSH, WATCH, remote);
    Downloads(ref, remote);
    DriveAppend(s, RECOVER + REUSE + VERIFY + PUSH + WATCH, DOWNLOAD, remote);
    Delivers(ref, remote);
    DriveAppend(s, RECOVER + REUSE + VERIFY + PUSH + WATCH + DOWNLOAD, DELIVER, remote);
  }
  // ---- restart ends a canceled job as failed ----

  const ABANDON: seq<Action> := [Run(1, Submit), Server(RequestCancel), Crash(PowerFailure)]

  const PROBE_FAILED := Observed(ProbeError, false, true, false, 0, 0, [])

  function Abandoned(ref: string): JobState {
    Pushing(ref).(row := Row(CancelRequested, true, 45, NoError, NoRecheck, false, false, ref, 0), active := false, threads := map[], recovering := true)
  }

  lemma Abandons(ref: string, remote: Remote)
    ensures Drive(Second(ref, RowAt(ref, WaitingDataset, 40), Ready(Receipt(1, 7))), ABANDON, remote) == Some(Abandoned(ref))
  {
    hide Enabled, Step, Second, Pushing, Abandoned;
    var canceled := Pushing(ref).(row := Row(CancelRequested, true, 45, NoError, NoRecheck, false, false, ref, 0));
    Push1(ref, remote);
    assert Steps(Pushing(ref), Server(RequestCancel), canceled, remote) by { CancelsPush(ref, remote); }
    assert Steps(canceled, Crash(PowerFailure), Abandoned(ref), remote) by { CrashesPush(ref, remote); }
    DriveFirst(Second(ref, RowAt(ref, WaitingDataset, 40), Ready(Receipt(1, 7))), ABANDON, Pushing(ref), remote);
    DriveFirst(Pushing(ref), ABANDON[1..], canceled, remote);
    DriveFirst(canceled, ABANDON[2..], Abandoned(ref), remote);
    assert ABANDON[1..][1..] == ABANDON[2..] && ABANDON[2..][1..] == [];
  }

  lemma CancelsPush(ref: string, remote: Remote)
    ensures Steps(Pushing(ref), Server(RequestCancel),
                  Pushing(ref).(row := Row(CancelRequested, true, 45, NoError, NoRecheck, false, false, ref, 0)), remote)
  {
  }

  lemma CrashesPush(ref: string, remote: Remote)
    ensures Steps(Pushing(ref).(row := Row(CancelRequested, true, 45, NoError, NoRecheck, false, false, ref, 0)), Crash(PowerFailure),
                  Abandoned(ref), remote)
  {
  }

  /** The first case is reached from a new job: canceled while its kernel is pushed, and the service dies; when the
      restart cannot look the kernel up, the canceled job ends failed. */
  lemma CanceledPushEndsFailed(ref: string, remote: Remote)
    requires Serves(remote, ref, Receipt(1, 7))
    ensures var r := Drive(Created(ref, false, 0), START + UPLOAD + CALL + (RECOVER + REUSE + VERIFY + ABANDON), remote);
      && r.Some? && r.value.recovering && r.value.row.status.CancelRequested? && FailsCanceled(r.value, PROBE_FAILED)
      && RecoverStep(r.value, PROBE_FAILED).row.status.Failed?
  {
    hide Drive, Unanswered, Second, Abandoned, Serves, Created, FailsCanceled, RecoverStep;
    var s := Unanswered(ref);
    CallsFirst(ref, remote);
    Recovers(ref, remote);
    Reuses(ref, remote);
    DriveAppend(s, RECOVER, REUSE, remote);
    VerifiesIt(ref, remote);
    DriveAppend(s, RECOVER + REUSE, VERIFY, remote);
    Abandons(ref, remote);
    DriveAppend(s, RECOVER + REUSE + VERIFY, ABANDON, remote);
    DriveAppend(Created(ref, false, 0), START + UPLOAD + CALL, RECOVER + REUSE + VERIFY + ABANDON, remote);
    AbandonedFails(ref);
  }

  lemma AbandonedFails(ref: string)
    ensures var s := Abandoned(ref);
      s.recovering && s.row.status.CancelRequested? && FailsCanceled(s, PROBE_FAILED) && RecoverStep(s, PROBE_FAILED).row.status.Failed?
  {
  }

  const RECHECK: seq<Action> := [Err(0, Schedule(Scheduled)), Server(ClaimRecheck), Server(Dequeue(RecheckItem, 1))]

  const INTERRUPT: seq<Action> := [Run(1, Acquire(None)), Run(1, Prepare), Err(1, Raise), Err(1, Handle(true, false))]

  const CANCEL: seq<Action> := [Server(RequestCancel), Err(1, Retain), Crash(PowerFailure)]

  const UNREADABLE := Observed(NotFound, false, false, false, 0, 0, [])

  function Due(ref: string, status: Status, canceled: bool, progress: int, error: ErrorText): Row {
    Row(status, canceled, progress, error, Checking, false, false, ref, 0)
  }

  function Planned(ref: string): JobState {
    Retained(ref).(row := Row(WaitingDataset, false, 20, RetainedCandidate, Scheduled, false, false, ref, 0), active := false, threads := map[])
  }

  /** A worker that rechecks the retained candidate. */
  function Rechecking(ref: string, row: Row, pc: Pc): JobState {
    Second(ref, row, pc).(threads := map[1 := Thread(RecheckRun, pc)])
  }

  function Claimed(ref: string): JobState {
    Planned(ref).(row := Due(ref, Queued, false, 20, NoError), queue := multiset{RecheckItem})
  }

  lemma Rechecks(ref: string, remote: Remote)
    ensures Drive(Retained(ref), RECHECK, remote) == Some(Rechecking(ref, Due(ref, Queued, false, 20, NoError), Begin))
  {
    hide Enabled, Step, Retained, Planned, Claimed, Rechecking;
    Recheck1(ref, remote);
    Recheck2(ref, remote);
    Recheck3(ref, remote);
    DriveFirst(Retained(ref), RECHECK, Planned(ref), remote);
    DriveFirst(Planned(ref), RECHECK[1..], Claimed(ref), remote);
    DriveFirst(Claimed(ref), RECHECK[2..], Rechecking(ref, Due(ref, Queued, false, 20, NoError), Begin), remote);
    assert RECHECK[1..][1..] == RECHECK[2..] && RECHECK[2..][1..] == [];
  }

  lemma Recheck1(ref: string, remote: Remote)
    ensures Steps(Retained(ref), Err(0, Schedule(Scheduled)), Planned(ref), remote)
  {
    assert map[0 := Thread(Process, RetainSchedule)] - {0} == map[];
  }

  lemma Recheck2(ref: string, remote: Remote)
    ensures Steps(Planned(ref), Server(ClaimRecheck), Claimed(ref), remote)
  {
    assert multiset{} + multiset{RecheckItem} == multiset{RecheckItem};
  }

  lemma Recheck3(ref: string, remote: Remote)
    ensures Steps(Claimed(ref), Server(Dequeue(RecheckItem, 1)), Rechecking(ref, Due(ref, Queued, false, 20, NoError), Begin), remote)
  {
    assert map[][1 := Thread(RecheckRun, Begin)] == map[1 := Thread(RecheckRun, Begin)];
    assert multiset{RecheckItem} - multiset{RecheckItem} == multiset{};
  }

  lemma Threads2(ref: string, row: Row, pc: Pc, next: Pc)
    ensures At(Rechecking(ref, row, pc), 1, next) == Rechecking(ref, row, next)
  {
    assert map[1 := Thread(RecheckRun, pc)][1 := Thread(RecheckRun, next)] == map[1 := Thread(RecheckRun, next)];
  }

  lemma Interrupts(ref: string, remote: Remote)
    ensures Drive(Rechecking(ref, Due(ref, Queued, false, 20, NoError), Begin), INTERRUPT, remote)
         == Some(Rechecking(ref, Due(ref, WaitingDataset, false, 35, NoError), RetainWrite))
  {
    hide Enabled, Step, Rechecking, Due;
    var queued, waiting := Due(ref, Queued, false, 20, NoError), Due(ref, WaitingDataset, false, 35, NoError);
    Interrupt1(ref, remote);
    Interrupt2(ref, remote);
    Interrupt3(ref, remote);
    Interrupt4(ref, remote);
    DriveFirst(Rechecking(ref, queued, Begin), INTERRUPT, Rechecking(ref, queued, Prepared(Some(Receipt(1, 7)))), remote);
    DriveFirst(Rechecking(ref, queued, Prepared(Some(Receipt(1, 7)))), INTERRUPT[1..], Rechecking(ref, waiting, Verify(Receipt(1, 7))), remote);
    DriveFirst(Rechecking(ref, waiting, Verify(Receipt(1, 7))), INTERRUPT[2..], Rechecking(ref, waiting, Raised), remote);
    DriveFirst(Rechecking(ref, waiting, Raised), INTERRUPT[3..], Rechecking(ref, waiting, RetainWrite), remote);
    assert INTERRUPT[1..][1..] == INTERRUPT[2..] && INTERRUPT[2..][1..] == INTERRUPT[3..] && INTERRUPT[3..][1..] == [];
  }

  lemma Interrupt1(ref: string, remote: Remote)
    ensures var row := Due(ref, Queued, false, 20, NoError);
      Steps(Rechecking(ref, row, Begin), Run(1, Acquire(None)), Rechecking(ref, row, Prepared(Some(Receipt(1, 7)))), remote)
  {
    hide RefSlug;
    assert Rewritten([], ref) == [];
    Threads2(ref, Due(ref, Queued, false, 20, NoError), Begin, Prepared(Some(Receipt(1, 7))));
  }

  lemma Interrupt2(ref: string, remote: Remote)
    ensures Steps(Rechecking(ref, Due(ref, Queued, false, 20, NoError), Prepared(Some(Receipt(1, 7)))), Run(1, Prepare),
                  Rechecking(ref, Due(ref, WaitingDataset, false, 35, NoError), Verify(Receipt(1, 7))), remote)
  {
    Threads2(ref, Due(ref, WaitingDataset, false, 35, NoError), Prepared(Some(Receipt(1, 7))), Verify(Receipt(1, 7)));
  }

  lemma Interrupt3(ref: string, remote: Remote)
    ensures var row := Due(ref, WaitingDataset, false, 35, NoError);
      Steps(Rechecking(ref, row, Verify(Receipt(1, 7))), Err(1, Raise), Rechecking(ref, row, Raised), remote)
  {
    Threads2(ref, Due(ref, WaitingDataset, false, 35, NoError), Verify(Receipt(1, 7)), Raised);
  }

  lemma Interrupt4(ref: string, remote: Remote)
    ensures var row := Due(ref, WaitingDataset, false, 35, NoError);
      Steps(Rechecking(ref, row, Raised), Err(1, Handle(true, false)), Rechecking(ref, row, RetainWrite), remote)
  {
    Threads2(ref, Due(ref, WaitingDataset, false, 35, NoError), Raised, RetainWrite);
  }

  function Forgotten(ref: string): JobState {
    Rechecking(ref, Due(ref, WaitingDataset, true, 35, RetainedCandidate), Begin).(active := false, threads := map[], recovering := true)
  }

  lemma Cancels(ref: string, remote: Remote)
    ensures Drive(Rechecking(ref, Due(ref, WaitingDataset, false, 35, NoError), RetainWrite), CANCEL, remote) == Some(Forgotten(ref))
  {
    hide Enabled, Step, Rechecking, Due, Forgotten;
    var waiting, canceled := Due(ref, WaitingDataset, false, 35, NoError), Due(ref, CancelRequested, true, 35, NoError);
    var retained := Rechecking(ref, Due(ref, WaitingDataset, true, 35, RetainedCandidate), RetainSchedule);
    Cancel1(ref, remote);
    Cancel2(ref, remote);
    Cancel3(ref, remote);
    DriveFirst(Rechecking(ref, waiting, RetainWrite), CANCEL, Rechecking(ref, canceled, RetainWrite), remote);
    DriveFirst(Rechecking(ref, canceled, RetainWrite), CANCEL[1..], retained, remote);
    DriveFirst(retained, CANCEL[2..], Forgotten(ref), remote);
    assert CANCEL[1..][1..] == CANCEL[2..] && CANCEL[2..][1..] == [];
  }

  lemma Cancel1(ref: string, remote: Remote)
    ensures Steps(Rechecking(ref, Due(ref, WaitingDataset, false, 35, NoError), RetainWrite), Server(RequestCancel),
                  Rechecking(ref, Due(ref, CancelRequested, true, 35, NoError), RetainWrite), remote)
  {
  }

  lemma Cancel2(ref: string, remote: Remote)
    ensures Steps(Rechecking(ref, Due(ref, CancelRequested, true, 35, NoError), RetainWrite), Err(1, Retain),
                  Rechecking(ref, Due(ref, WaitingDataset, true, 35, RetainedCandidate), RetainSchedule), remote)
  {
    Threads2(ref, Due(ref, WaitingDataset, true, 35, RetainedCandidate), RetainWrite, RetainSchedule);
  }

  lemma Cancel3(ref: string, remote: Remote)
    ensures Steps(Rechecking(ref, Due(ref, WaitingDataset, true, 35, RetainedCandidate), RetainSchedule), Crash(PowerFailure), Forgotten(ref), remote)
  {
  }

  /** So is the second: canceled between the two decisions of the failure handler of a recheck, and the service dies;
      when the restart cannot read the intent, the canceled job ends failed. */
  lemma CanceledRecheckEndsFailed(ref: string, remote: Remote)
    ensures var r := Drive(Created(ref, false, 0), START + UPLOAD + CALL + (LOSE + RECHECK + INTERRUPT + CANCEL), remote);
      && r.Some? && r.value.recovering && r.value.row.status.WaitingDataset? && r.value.row.cancelRequested
      && FailsCanceled(r.value, UNREADABLE) && RecoverStep(r.value, UNREADABLE).row.status.Failed?
  {
    hide Drive, Unanswered, Retained, Rechecking, Due, Forgotten, Created, FailsCanceled, RecoverStep;
    var s := Unanswered(ref);
    CallsFirst(ref, remote);
    Loses(ref, remote);
    Rechecks(ref, remote);
    DriveAppend(s, LOSE, RECHECK, remote);
    Interrupts(ref, remote);
    DriveAppend(s, LOSE + RECHECK, INTERRUPT, remote);
    Cancels(ref, remote);
    DriveAppend(s, LOSE + RECHECK + INTERRUPT, CANCEL, remote);
    DriveAppend(Created(ref, false, 0), START + UPLOAD + CALL, LOSE + RECHECK + INTERRUPT + CANCEL, remote);
    ForgottenFails(ref);
  }

  lemma ForgottenFails(ref: string)
    ensures var s := Forgotten(ref);
      s.recovering && s.row.status.WaitingDataset? && s.row.cancelRequested && FailsCanceled(s, UNREADABLE) && RecoverStep(s, UNREADABLE).row.status.Failed?
  {
  }

  // ---- a canceled job that stays ----

  const LEAVE: seq<Action> := [Run(0, GiveUpUpload), Err(0, Handle(true, false)), Server(RequestCancel), Err(0, Retain), Err(0, Schedule(Scheduled))]

  /** The worker gave up its upload and decided to retain the candidate; then the job was canceled. */
  function CanceledLate(ref: string, status: Status, error: ErrorText, pc: Pc): JobState {
    GivenUp(ref, pc).(row := Row(status, true, 20, error, NoRecheck, false, false, ref, 0))
  }

  function LeftBehind(ref: string): JobState {
    CanceledLate(ref, WaitingDataset, RetainedCandidate, Begin).(active := false, threads := map[])
  }

  lemma Leaves(ref: string, remote: Remote)
    ensures Drive(Unanswered(ref), LEAVE, remote) == Some(LeftBehind(ref))
  {
    hide Enabled, Step, Unanswered, GivenUp, CanceledLate, LeftBehind;
    GivesUp(ref, remote);
    Handles(ref, remote);
    Leave1(ref, remote);
    Leave2(ref, remote);
    Leave3(ref, remote);
    DriveFirst(Unanswered(ref), LEAVE, GivenUp(ref, Raised), remote);
    DriveFirst(GivenUp(ref, Raised), LEAVE[1..], GivenUp(ref, RetainWrite), remote);
    DriveFirst(GivenUp(ref, RetainWrite), LEAVE[2..], CanceledLate(ref, CancelRequested, NoError, RetainWrite), remote);
    DriveFirst(CanceledLate(ref, CancelRequested, NoError, RetainWrite), LEAVE[3..], CanceledLate(ref, WaitingDataset, RetainedCandidate, RetainSchedule), remote);
    DriveFirst(CanceledLate(ref, WaitingDataset, RetainedCandidate, RetainSchedule), LEAVE[4..], LeftBehind(ref), remote);
    assert LEAVE[1..][1..] == LEAVE[2..] && LEAVE[2..][1..] == LEAVE[3..] && LEAVE[3..][1..] == LEAVE[4..] && LEAVE[4..][1..] == [];
  }

  lemma Leave1(ref: string, remote: Remote)
    ensures Steps(GivenUp(ref, RetainWrite), Server(RequestCancel), CanceledLate(ref, CancelRequested, NoError, RetainWrite), remote)
  {
  }

  lemma Leave2(ref: string, remote: Remote)
    ensures Steps(CanceledLate(ref, CancelRequested, NoError, RetainWrite), Err(0, Retain),
                  CanceledLate(ref, WaitingDataset, RetainedCandidate, RetainSchedule), remote)
  {
    assert map[0 := Thread(Process, RetainWrite)][0 := Thread(Process, RetainSchedule)] == map[0 := Thread(Process, RetainSchedule)];
  }

  lemma Leave3(ref: string, remote: Remote)
    ensures Steps(CanceledLate(ref, WaitingDataset, RetainedCandidate, RetainSchedule), Err(0, Schedule(Scheduled)), LeftBehind(ref), remote)
  {
    assert map[0 := Thread(Process, RetainSchedule)] - {0} == map[];
  }

  /** Reached from a new job: canceled between the two decisions of the failure handler, whose unconditional write then
      takes the job back to waiting_dataset, where it stays. */
  lemma CanceledJobStaysWaiting(ref: string, remote: Remote)
    ensures var r := Drive(Created(ref, false, 0), START + UPLOAD + CALL + LEAVE, remote); r.Some? && LeftWaiting(r.value)
  {
    hide Drive, Unanswered, LeftBehind, Created, LeftWaiting;
    CallsFirst(ref, remote);
    Leaves(ref, remote);
    DriveAppend(Created(ref, false, 0), START + UPLOAD + CALL, LEAVE, remote);
    assert LeftWaiting(LeftBehind(ref)) by { BehindIsLeft(ref); }
  }

  lemma BehindIsLeft(ref: string)
    ensures LeftWaiting(LeftBehind(ref))
  {
  }
}
